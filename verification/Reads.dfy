/** Linearizable reads: an answered read saw everything committed anywhere in
    the Cluster before the read was accepted. */
module Reads {
  import opened Types
  import opened Messages
  import opened Node
  import opened Cluster
  import opened Protocol
  import opened ProtocolProofs
  import opened Coupling
  import opened Framing
  import opened Effects
  import opened Elections
  import opened Followers
  import opened Leaders
  import opened Snapshots
  import opened Steps
  import opened Crashes
  import opened Runs
  import Sessions

  // ------------------------------------------------ steps that answer nothing

  predicate NoAnswers(actions: seq<Action>) {
    forall a :: a in actions ==> !a.ReadConfirmed?
  }

  lemma {:induction false} BroadcastNoAnswers(peers: seq<NodeId>, m: Message)
    ensures NoAnswers(Broadcast(peers, m))
    decreases |peers|
  {
    if peers != [] { BroadcastNoAnswers(peers[1..], m); }
  }

  lemma SendToNoAnswers(n: Node, peer: NodeId, readId: nat)
    ensures NoAnswers(SendTo(n, peer, readId).actions)
  {
  }

  lemma {:induction false} SendAllNoAnswers(n: Node, peers: seq<NodeId>, readId: nat)
    ensures NoAnswers(SendAll(n, peers, readId).actions)
    decreases |peers|
  {
    if peers != [] {
      var carried := if readId == 0 then PendingReadFor(n, peers[0]) else readId;
      SendToNoAnswers(n, peers[0], carried);
      SendAllNoAnswers(SendTo(n, peers[0], carried).node, peers[1..], readId);
    }
  }

  lemma {:induction false} ApplyThroughNoAnswers(n: Node, index: nat)
    requires n.waiting == map[]
    ensures NoAnswers(ApplyThrough(n, index).actions)
    decreases index - n.lastApplied
  {
    if index <= n.lastApplied || !(n.base <= n.lastApplied < LastIndex(n)) {
      assert ReadyReads(n) == {};
    } else {
      ApplyThroughNoAnswers(ApplyOne(n).node, index);
    }
  }

  lemma ElectionNoAnswers(n: Node)
    ensures NoAnswers(StartElection(n).actions) && NoAnswers(OnElectionTimeout(n).actions)
  {
    BroadcastNoAnswers(n.peers, VoteRequest(n.term + 1, LastIndex(n), LastTerm(n)));
    BroadcastNoAnswers(n.peers, PreVoteRequest(n.term + 1, LastIndex(n), LastTerm(n)));
  }

  lemma VoteReplyNoAnswers(n: Node, from: NodeId, m: Message)
    requires m.VoteReply?
    ensures NoAnswers(OnVoteReply(n, from, m).actions)
  {
    hide SendAll;
    var noop := FirstEntry(n);
    var n2 := n.(votes := n.votes + {from}, role := Leader, leaderId := n.id, activePeers := {}, matchIndex := map[],
                 inFlight := map[], snapInFlight := map[], readReady := false,
                 log := n.log + [noop], nextIndex := InitialNext(n.peers, LastIndex(n) + 2));
    SendAllNoAnswers(n2, n2.peers, 0);
  }

  lemma ProposalNoAnswers(n: Node, ev: Event)
    requires ev.ProposeSession? || ev.ProposeSet? || ev.ProposeDelete?
    ensures NoAnswers(OnPropose(n, ev).actions)
  {
    hide SendAll;
    forall e: Entry ensures NoAnswers(Propose(n, ev.proposalId, e).actions) {
      SendAllNoAnswers(n.(log := n.log + [e]), n.peers, 0);
    }
  }

  lemma LocalNoAnswers(n: Node, ev: Event)
    requires ev.ElectionTimeout? || ev.HeartbeatTimeout? || ev.CheckQuorumTimeout? || ev.AppendFailed? || ev.ConfirmRead?
             || ev.ProposeSession? || ev.ProposeSet? || ev.ProposeDelete? || ev.SnapshotCompacted? || ev.ReceiveSnapshot?
    ensures NoAnswers(Step(n, ev).actions)
  {
    hide SendAll, OnElectionTimeout, OnPropose;
    match ev
    case ElectionTimeout => ElectionNoAnswers(n);
    case HeartbeatTimeout => SendAllNoAnswers(n.(inFlight := map[]), n.peers, 0);
    case ConfirmRead(id) => SendAllNoAnswers(n.(waiting := n.waiting[id := PendingRead({n.id}, 0, false)]), n.peers, id);
    case ProposeSession(_, _, _) => ProposalNoAnswers(n, ev);
    case ProposeSet(_, _, _, _, _) => ProposalNoAnswers(n, ev);
    case ProposeDelete(_, _, _, _) => ProposalNoAnswers(n, ev);
    case _ =>
  }

  lemma FinishNoAnswers(n: Node, writes: seq<Write>, from: NodeId, m: Message)
    requires m.AppendRequest? && n.waiting == map[]
    ensures NoAnswers(FinishAppend(n, writes, from, m).actions)
  {
    hide ApplyThrough;
    var target := Min(m.leaderCommit, LastIndex(n));
    var n1 := if target > n.commit then n.(commit := target) else n;
    ApplyThroughNoAnswers(n1, n1.commit);
  }

  /** A Follower holds no reads, so it answers none. */
  lemma AppendRequestNoAnswers(n: Node, from: NodeId, m: Message)
    requires m.AppendRequest? && (m.term == n.term ==> n.waiting == map[])
    ensures NoAnswers(OnAppendRequest(n, from, m).actions)
  {
    hide FinishAppend, StoreWrites, PlanAppend, Matches, ConflictHint, HardStateIf;
    if n.term <= m.term {
      var n1 := Recognise(n, m.term, from);
      var hs := HardStateIf(m.term > n.term, n1);
      FinishNoAnswers(n1, hs, from, m);
      match PlanAppend(n1, m.prevIndex + 1, m.entries)
      case Store(truncateFrom, tail) =>
        FinishNoAnswers(StoreEntries(n1, truncateFrom, tail), hs + StoreWrites(truncateFrom, tail), from, m);
      case _ =>
    }
  }

  lemma ReceiveNoAnswers(n: Node, from: NodeId, m: Message)
    requires !m.AppendReply? && (m.AppendRequest? && m.term == n.term ==> n.waiting == map[])
    ensures NoAnswers(OnReceive(n, from, m).actions)
  {
    hide OnAppendRequest, OnVoteReply, SendTo, StartElection;
    match m
    case PreVoteReply(_, _, _) => ElectionNoAnswers(n.(preVotes := n.preVotes + {from}));
    case VoteReply(_, _) => VoteReplyNoAnswers(n, from, m);
    case AppendRequest(_, _, _, _, _, _, _) => AppendRequestNoAnswers(n, from, m);
    case SnapshotReply(_, _, _, _, _, _) =>
      var n1 := n.(snapInFlight := n.snapInFlight - {from},
                   matchIndex := n.matchIndex[from := Max(Get(n.matchIndex, from, 0), m.index)],
                   nextIndex := n.nextIndex[from := m.index + 1]);
      SendToNoAnswers(n1, from, PendingReadFor(n1, from));
    case _ =>
  }

  // --------------------------------------------------------------- steps that do

  /** The answer covers the height at which the read was accepted, and the state
      machine has applied at least that much. */
  predicate AnswerOk(asked: map<ReadKey, nat>, id: NodeId, term: nat, applied: nat, a: Action) {
    a.ReadConfirmed? ==>
      && ReadKey(id, term, a.readId) in asked
      && asked[ReadKey(id, term, a.readId)] <= a.commitIndex <= applied
  }

  ghost predicate AnswersOk(asked: map<ReadKey, nat>, id: NodeId, term: nat, applied: nat, actions: seq<Action>) {
    forall a {:trigger AnswerOk(asked, id, term, applied, a)} :: a in actions ==> AnswerOk(asked, id, term, applied, a)
  }

  lemma NoAnswersOk(asked: map<ReadKey, nat>, id: NodeId, term: nat, applied: nat, actions: seq<Action>)
    requires NoAnswers(actions)
    ensures AnswersOk(asked, id, term, applied, actions)
  {
  }

  lemma AnswersConcat(asked: map<ReadKey, nat>, id: NodeId, term: nat, k: nat, applied: nat, a: seq<Action>, b: seq<Action>)
    requires AnswersOk(asked, id, term, k, a) && AnswersOk(asked, id, term, applied, b) && k <= applied
    ensures AnswersOk(asked, id, term, applied, a + b)
  {
    forall x | x in a + b ensures AnswerOk(asked, id, term, applied, x) {
      assert x in a ==> AnswerOk(asked, id, term, k, x);
      assert x in b ==> AnswerOk(asked, id, term, applied, x);
    }
  }

  lemma {:induction false} CompleteReadsAnswers(g: Ghost, asked: map<ReadKey, nat>, id: NodeId, n: Node)
    requires NodeView(g, asked, id, n)
    ensures AnswersOk(asked, id, n.term, n.lastApplied, CompleteReads(n).actions)
    decreases |ReadyReads(n)|
  {
    var ready := ReadyReads(n);
    if ready != {} {
      var r := Least(ready);
      var n' := n.(waiting := n.waiting - {r});
      assert ReadyReads(n') == ready - {r};
      FewerReads(g, asked, id, n, n');
      CompleteReadsAnswers(g, asked, id, n');
      assert ReadView(g, asked, id, n, r);
      var a := ReadConfirmed(r, n.waiting[r].commitIndex);
      assert AnswerOk(asked, id, n.term, n.lastApplied, a);
      AnswersConcat(asked, id, n.term, n.lastApplied, n.lastApplied, [a], CompleteReads(n').actions);
    }
  }

  lemma AckersHere(g: Ghost, asked: map<ReadKey, nat>, id: NodeId, n: Node, from: NodeId, readId: nat)
    requires Ready(g, asked, id, n) && n.role == Leader && from in g.p.members && ReplyReads(g, id, n, from, readId)
    requires readId != 0 && readId in n.waiting && !n.waiting[readId].confirmed
    ensures var key, acks := ReadKey(id, n.term, readId), n.waiting[readId].acks + {from};
            key in g.asks && acks <= g.p.members && AllHere(g.p, acks, n.term, g.asks[key])
  {
    hide Inv;
    assert ReadView(g, asked, id, n, readId);
  }

  lemma AckReadAnswers(g: Ghost, asked: map<ReadKey, nat>, id: NodeId, n: Node, from: NodeId, readId: nat)
    requires Ready(g, asked, id, n) && AskedOk(g, asked) && n.role == Leader && from in g.p.members && ReplyReads(g, id, n, from, readId)
    ensures AnswersOk(asked, id, n.term, n.lastApplied, AckRead(n, from, readId).actions)
  {
    hide Inv, NodeView, AskedOk;
    if readId != 0 && readId in n.waiting && !n.waiting[readId].confirmed {
      var acks := n.waiting[readId].acks + {from};
      AckersHere(g, asked, id, n, from, readId);
      if |acks| >= Quorum(n) {
        ReadCovers(g, asked, id, n, readId, acks);
        CountAck(g, asked, id, n, readId, PendingRead(acks, n.commit, true));
        CompleteReadsAnswers(g, asked, id, n.(waiting := n.waiting[readId := PendingRead(acks, n.commit, true)]));
      }
    }
  }

  lemma {:induction false} ApplyThroughAnswers(g: Ghost, asked: map<ReadKey, nat>, limit: int, id: NodeId, n: Node, index: nat, image: Sessions.Machine)
    requires Inv(g.p) && NodeView(g, asked, id, n) && index <= n.commit
    ensures AnswersOk(asked, id, n.term, Max(n.lastApplied, index), ApplyThrough(n, index).actions)
    decreases index - n.lastApplied
  {
    if index <= n.lastApplied {
      CompleteReadsAnswers(g, asked, id, n);
    } else {
      ApplyOneOk(g, asked, limit, id, n, image);
      hide Inv, NodeView;
      var one := ApplyOne(n);
      ApplyThroughAnswers(g, asked, limit, id, one.node, index, image);
      NoAnswersOk(asked, id, n.term, index, one.actions);
      AnswersConcat(asked, id, n.term, index, index, one.actions, ApplyThrough(one.node, index).actions);
    }
  }

  lemma CommittingAnswers(g: Ghost, asked: map<ReadKey, nat>, limit: int, id: NodeId, n: Node, image: Sessions.Machine, from: NodeId, readId: nat, index: nat)
    requires Ready(g, asked, id, n) && n.role == Leader && AskedOk(g, asked) && ImageOk(g.p, limit, id, n, image)
    requires n.commit < index <= LastIndex(n) && Committable(n, index) && from in g.p.members && ReplyReads(g, id, n, from, readId)
    ensures var sent := SendAll(n.(commit := index), n.peers, 0);
            var read := AckRead(sent.node, from, readId);
            var applied := ApplyThrough(read.node, index);
            AnswersOk(asked, id, n.term, applied.node.lastApplied, read.actions + applied.actions + sent.actions)
  {
    hide Inv, GhostEvolves, NodeView, ActionsOk, AskedOk, ReplyReads, Committable, SendAll, AckRead, ApplyThrough, AnswersOk, ImageOk, Grows;
    var g' := AdvanceOk(g, asked, id, n, index);
    AskedKept(g, g', asked, id);
    ReplyReadsKept(g, g', id, n, from, readId);
    MembersKept(g, g', id);
    var n1 := n.(commit := index);
    ImageKept(g, g', asked, limit, id, n, n1, image);
    SendAllOk(g', asked, limit, id, n1, image, n.peers, 0);
    var sent := SendAll(n1, n.peers, 0);
    ReplyReadsSame(g', id, n, sent.node, from, readId);
    AckReadOk(g', asked, limit, id, sent.node, image, from, readId);
    AckReadAnswers(g', asked, id, sent.node, from, readId);
    var read := AckRead(sent.node, from, readId);
    ApplyThroughOk(g', asked, limit, id, read.node, image, index);
    ApplyThroughAnswers(g', asked, limit, id, read.node, index, image);
    var applied := ApplyThrough(read.node, index);
    var k := applied.node.lastApplied;
    AnswersConcat(asked, id, n.term, read.node.lastApplied, k, read.actions, applied.actions);
    SendAllNoAnswers(n1, n.peers, 0);
    NoAnswersOk(asked, id, n.term, k, sent.actions);
    AnswersConcat(asked, id, n.term, k, k, read.actions + applied.actions, sent.actions);
  }

  lemma MembersKept(g: Ghost, g': Ghost, id: NodeId)
    requires GhostEvolves(g, g', id)
    ensures g'.p.members == g.p.members
  {
  }

  lemma PlainAnswers(g: Ghost, asked: map<ReadKey, nat>, limit: int, id: NodeId, n: Node, image: Sessions.Machine, from: NodeId, readId: nat, send: bool)
    requires Ready(g, asked, id, n) && n.role == Leader && AskedOk(g, asked) && ImageOk(g.p, limit, id, n, image)
    requires from in n.peers && from in g.p.members && ReplyReads(g, id, n, from, readId)
    ensures var sent := if send then SendTo(n, from, PendingReadFor(n, from)) else Effect(n, []);
            var read := AckRead(sent.node, from, readId);
            AnswersOk(asked, id, n.term, read.node.lastApplied, sent.actions + read.actions)
  {
    hide Inv, NodeView, ActionsOk, AskedOk, ReplyReads, SendTo, AckRead, PendingReadFor, AnswersOk, ImageOk;
    CarriedRead(g, asked, id, n, from);
    var sent := if send then SendTo(n, from, PendingReadFor(n, from)) else Effect(n, []);
    if send {
      SendToOk(g, asked, limit, id, n, image, from, PendingReadFor(n, from));
      SendToNoAnswers(n, from, PendingReadFor(n, from));
    }
    ReplyReadsSame(g, id, n, sent.node, from, readId);
    AckReadOk(g, asked, limit, id, sent.node, image, from, readId);
    AckReadAnswers(g, asked, id, sent.node, from, readId);
    var read := AckRead(sent.node, from, readId);
    NoAnswersOk(asked, id, n.term, read.node.lastApplied, sent.actions);
    AnswersConcat(asked, id, n.term, read.node.lastApplied, read.node.lastApplied, sent.actions, read.actions);
  }

  lemma CurrentReplyAnswers(g: Ghost, asked: map<ReadKey, nat>, limit: int, id: NodeId, n: Node, image: Sessions.Machine, from: NodeId, m: Message)
    requires Ready(g, asked, id, n) && AskedOk(g, asked) && ImageOk(g.p, limit, id, n, image)
    requires m.AppendReply? && AppendReplyView(g, from, id, m) && from in g.p.members && from != id && from in n.peers
    requires n.role == Leader && m.term == n.term && !StaleRejection(m) && ReplyReads(g, id, n, from, m.readId)
    ensures var r := CurrentReply(n, from, m, Get(n.inFlight, from, InFlight(0, 0)).leaderCommit);
            AnswersOk(asked, id, n.term, r.node.lastApplied, r.actions)
  {
    hide Inv, GhostEvolves, NodeView, AskedOk, ReplyReads, AppendReplyView, Committable, SameButPeer, NoteReply, SendAll, AckRead, ApplyThrough, SendTo, PendingReadFor, AnswersOk;
    NoteReplyOk(g, asked, id, n, from, m);
    NotedShape(n, from, m);
    var n1 := NoteReply(n, from, m);
    NotedSame(n, n1, from);
    ReplyReadsSame(g, id, n, n1, from, m.readId);
    LeaderCommitIs(n1, LastIndex(n1));
    var index := LeaderCommit(n1, LastIndex(n1));
    if index > n1.commit {
      CommittingAnswers(g, asked, limit, id, n1, image, from, m.readId, index);
    } else {
      PlainAnswers(g, asked, limit, id, n1, image, from, m.readId,
        !m.success || Get(n1.nextIndex, from, 0) <= LastIndex(n1) || PendingReadFor(n1, from) != 0
        || Get(n.inFlight, from, InFlight(0, 0)).leaderCommit < n1.commit);
    }
  }

  lemma AppendReplyAnswers(g: Ghost, asked: map<ReadKey, nat>, limit: int, id: NodeId, n: Node, image: Sessions.Machine, from: NodeId, m: Message)
    requires Ready(g, asked, id, n) && AskedOk(g, asked) && ImageOk(g.p, limit, id, n, image)
    requires m.AppendReply? && AppendReplyView(g, from, id, m) && from in g.p.members && from != id
    requires StaleRejection(m) ==> !ActsOn(n, from, m)
    ensures var r := OnAppendReply(n, from, m);
            AnswersOk(asked, id, n.term, r.node.lastApplied, r.actions)
  {
    hide Inv, NodeView, AskedOk, ImageOk, AnswersOk, CurrentReply;
    var r := OnAppendReply(n, from, m);
    var pending := Get(n.inFlight, from, InFlight(0, 0));
    if n.role == Leader && m.term == n.term && !(pending.requestId != 0 && m.requestId != 0 && m.requestId != pending.requestId) {
      PeerIsListed(g, asked, id, n, from);
      assert ReplyReads(g, id, n, from, m.readId);
      CurrentReplyAnswers(g, asked, limit, id, n, image, from, m);
    } else {
      NoAnswersOk(asked, id, n.term, r.node.lastApplied, r.actions);
    }
  }

  lemma OthersLeadElsewhere(g: Ghost, asked: map<ReadKey, nat>, id: NodeId, n: Node, from: NodeId, m: Message)
    requires NodeView(g, asked, id, n) && m.AppendRequest? && AppendRequestView(g, from, id, m) && from != id && m.term == n.term
    ensures n.waiting == map[]
  {
  }

  lemma MessageAnswers(g: Ghost, asked: map<ReadKey, nat>, limit: int, id: NodeId, n: Node, image: Sessions.Machine, p: Packet)
    requires Acting(g, asked, limit, id, n, image)
    requires PacketView(g, limit, p) && p.to == id && !p.msg.SnapshotRequest?
    requires StaleRejection(p.msg) ==> !ActsOn(n, p.from, p.msg)
    ensures var r := Step(n, Receive(p.from, p.msg));
            AnswersOk(asked, id, n.term, r.node.lastApplied, r.actions)
  {
    hide Inv, NodeView, AskedOk, AsksOk, ImageOk, AnswersOk, OnAppendReply;
    hide AppendRequestView, AppendReplyView, VoteRequestView, SnapshotReplyView;
    var r := Step(n, Receive(p.from, p.msg));
    if p.msg.AppendReply? {
      AppendReplyAnswers(g, asked, limit, id, n, image, p.from, p.msg);
    } else {
      if p.msg.AppendRequest? && p.msg.term == n.term { OthersLeadElsewhere(g, asked, id, n, p.from, p.msg); }
      hide OnReceive;
      ReceiveNoAnswers(n, p.from, p.msg);
      NoAnswersOk(asked, id, n.term, r.node.lastApplied, r.actions);
    }
  }

  /** A read that any Node answers in any run covers the highest index any Node
      had committed when the read was accepted, and is answered from a state
      that includes all of it. */
  lemma ReadsLinearizable(c: Cluster, id: NodeId, stim: Stimulus, readId: nat, commitIndex: nat)
    requires Reachable(c) && Enabled(c, id, stim) && Guarded(c, id, stim)
    requires ReadConfirmed(readId, commitIndex) in Step(c.hosts[id].node, EventOf(c.hosts[id].node, stim)).actions
    ensures var key := ReadKey(id, c.hosts[id].node.term, readId);
            var after := Run(c, id, stim);
            key in c.asked && c.asked[key] <= commitIndex <= after.hosts[id].node.lastApplied
  {
    hide Coupled, Reachable, Acting, Step, AnswersOk, PacketView;
    var g := ReachableCoupled(c);
    var h := c.hosts[id];
    var r := Step(h.node, EventOf(h.node, stim));
    ActingNode(c, g, id);
    if stim.Message? {
      InNet(c, g, stim.packet);
      MessageAnswers(g, c.asked, c.limit, id, h.node, h.image, stim.packet);
    } else {
      LocalNoAnswers(h.node, EventOf(h.node, stim));
      NoAnswersOk(c.asked, id, h.node.term, r.node.lastApplied, r.actions);
    }
    AnswerIn(c.asked, id, h.node.term, r.node.lastApplied, r.actions, ReadConfirmed(readId, commitIndex));
  }

  lemma AnswerIn(asked: map<ReadKey, nat>, id: NodeId, term: nat, applied: nat, actions: seq<Action>, a: Action)
    requires AnswersOk(asked, id, term, applied, actions) && a in actions
    ensures AnswerOk(asked, id, term, applied, a)
  {
  }

  /** `high` is what the theorem takes it for: no Node has ever committed more. */
  lemma {:induction false} HighCoversAll(rules: Rules, run: seq<Cluster>, i: nat, id: NodeId)
    requires IsRunUnder(rules, run) && i < |run| && id in run[i].hosts
    ensures run[i].hosts[id].node.commit <= run[|run| - 1].high
    decreases |run|, i
  {
    hide NextUnder, IsStart;
    var k := |run| - 1;
    if k == 0 {
      NothingCommitted(run[0], id);
    } else if i < k {
      HighCoversAll(rules, run[..k], i, id);
      assert NextUnder(rules, run[k - 1], run[k - 1 + 1]);
      HighRises(rules, run[k - 1], run[k]);
    } else {
      assert NextUnder(rules, run[k - 1], run[k - 1 + 1]);
      CommitBelowHigh(rules, run[k - 1], run[k], id);
      if run[k].hosts[id] == run[k - 1].hosts[id] { HighCoversAll(rules, run[..k], k - 1, id); }
    }
  }

  lemma NothingCommitted(c: Cluster, id: NodeId)
    requires IsStart(c) && id in c.hosts
    ensures c.hosts[id].node.commit == 0
  {
  }

  lemma HighRises(rules: Rules, c: Cluster, c': Cluster)
    requires NextUnder(rules, c, c')
    ensures c.high <= c'.high
  {
    hide Step, ApplyThrough, Consume, EventOf, Enabled;
    var id, stim :| StepUnder(rules, c, c', id, stim);
  }

  lemma CommitBelowHigh(rules: Rules, c: Cluster, c': Cluster, id: NodeId)
    requires NextUnder(rules, c, c') && id in c'.hosts
    ensures id in c.hosts && c.high <= c'.high && (c'.hosts[id] == c.hosts[id] || c'.hosts[id].node.commit <= c'.high)
  {
    hide Step, ApplyThrough, Consume, EventOf;
    var j, stim :| StepUnder(rules, c, c', j, stim);
  }

  /** Nothing is answered by a recovering Node. */
  lemma RecoveryAnswersNothing(id: NodeId, peers: seq<NodeId>, d: Durable)
    ensures NoAnswers(ApplyThrough(Restart(id, peers, d), d.commit).actions)
  {
    ApplyThroughNoAnswers(Restart(id, peers, d), d.commit);
  }
}
