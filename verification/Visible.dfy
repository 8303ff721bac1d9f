/** Durable before visible: whatever a step promises to the outside, a vote, an
    acknowledgement or an applied entry, the disk already stands for. */
module Visible {
  import opened Types
  import opened Messages
  import opened Node
  import opened Cluster
  import opened Coupling
  import opened Protocol
  import opened ProtocolProofs
  import opened Durability
  import opened Machines
  import opened Effects
  import opened Steps
  import opened Runs
  import opened WalReplay
  import Refinement

  /** An effect that commits the Node to something. */
  predicate Promise(a: Action) {
    a.Send? && ((a.msg.VoteReply? && a.msg.granted) || (a.msg.AppendReply? && a.msg.success))
  }

  predicate Backs(n: Node, a: Action) {
    Promise(a) ==>
      && a.msg.term == n.term
      && (a.msg.VoteReply? ==> n.votedFor == a.to)
      && (a.msg.AppendReply? ==> a.msg.matchIndex == LastIndex(n))
  }

  predicate Promises(n: Node, actions: seq<Action>) { forall a :: a in actions ==> Backs(n, a) }

  /** Every promise among the actions is made to this Node in this Term. */
  predicate PromisesTo(actions: seq<Action>, to: NodeId, t: nat) { forall a :: a in actions && Promise(a) ==> a.to == to && a.msg.term == t }

  predicate Unpromising(actions: seq<Action>) { forall a :: a in actions ==> !Promise(a) }

  // ----------------------------------------------------------- what promises nothing

  lemma {:induction false} BroadcastUnpromising(peers: seq<NodeId>, m: Message)
    requires m.PreVoteRequest? || m.VoteRequest?
    ensures Unpromising(Broadcast(peers, m))
    decreases |peers|
  {
    if peers != [] { BroadcastUnpromising(peers[1..], m); }
  }

  lemma SendToUnpromising(n: Node, peer: NodeId, readId: nat)
    ensures Unpromising(SendTo(n, peer, readId).actions)
  {
  }

  lemma {:induction false} SendAllUnpromising(n: Node, peers: seq<NodeId>, readId: nat)
    ensures Unpromising(SendAll(n, peers, readId).actions)
    decreases |peers|
  {
    if peers != [] {
      var carried := if readId == 0 then PendingReadFor(n, peers[0]) else readId;
      SendToUnpromising(n, peers[0], carried);
      SendAllUnpromising(SendTo(n, peers[0], carried).node, peers[1..], readId);
    }
  }

  lemma {:induction false} CompleteReadsUnpromising(n: Node)
    ensures Unpromising(CompleteReads(n).actions)
    decreases |ReadyReads(n)|
  {
    var ready := ReadyReads(n);
    if ready != {} {
      var n' := n.(waiting := n.waiting - {Least(ready)});
      assert ReadyReads(n') == ready - {Least(ready)};
      CompleteReadsUnpromising(n');
    }
  }

  lemma AckReadUnpromising(n: Node, from: NodeId, readId: nat)
    ensures Unpromising(AckRead(n, from, readId).actions)
  {
    if readId != 0 && readId in n.waiting && !n.waiting[readId].confirmed {
      var acks := n.waiting[readId].acks + {from};
      CompleteReadsUnpromising(n.(waiting := n.waiting[readId := PendingRead(acks, n.commit, true)]));
    }
  }

  lemma {:induction false} ApplyThroughUnpromising(n: Node, index: nat)
    ensures Unpromising(ApplyThrough(n, index).actions)
    decreases index - n.lastApplied
  {
    if index <= n.lastApplied || !(n.base <= n.lastApplied < LastIndex(n)) {
      CompleteReadsUnpromising(n);
    } else {
      ApplyThroughUnpromising(ApplyOne(n).node, index);
    }
  }

  lemma ElectionUnpromising(n: Node)
    ensures Unpromising(StartElection(n).actions) && Unpromising(OnElectionTimeout(n).actions)
  {
    BroadcastUnpromising(n.peers, VoteRequest(n.term + 1, LastIndex(n), LastTerm(n)));
    BroadcastUnpromising(n.peers, PreVoteRequest(n.term + 1, LastIndex(n), LastTerm(n)));
  }

  lemma LeaderUnpromising(n: Node, from: NodeId, m: Message)
    requires m.VoteReply? || m.AppendReply? || m.SnapshotReply?
    ensures Unpromising(OnReceive(n, from, m).actions)
  {
    hide SendAll, SendTo, AckRead, ApplyThrough, LeaderCommit, PendingReadFor, NoteReply;
    match m
    case VoteReply(_, _) =>
      var noop := FirstEntry(n);
      var n2 := n.(votes := n.votes + {from}, role := Leader, leaderId := n.id, activePeers := {}, matchIndex := map[],
                   inFlight := map[], snapInFlight := map[], readReady := false,
                   log := n.log + [noop], nextIndex := InitialNext(n.peers, LastIndex(n) + 2));
      SendAllUnpromising(n2, n2.peers, 0);
    case AppendReply(_, _, _, _, _, _, _) =>
      var n1 := NoteReply(n, from, m);
      var index := LeaderCommit(n1, LastIndex(n1));
      SendAllUnpromising(n1.(commit := index), n1.peers, 0);
      var sent := SendAll(n1.(commit := index), n1.peers, 0);
      AckReadUnpromising(sent.node, from, m.readId);
      ApplyThroughUnpromising(AckRead(sent.node, from, m.readId).node, index);
      SendToUnpromising(n1, from, PendingReadFor(n1, from));
      AckReadUnpromising(SendTo(n1, from, PendingReadFor(n1, from)).node, from, m.readId);
      AckReadUnpromising(n1, from, m.readId);
    case SnapshotReply(_, _, _, _, _, _) =>
      var n1 := n.(snapInFlight := n.snapInFlight - {from},
                   matchIndex := n.matchIndex[from := Max(Get(n.matchIndex, from, 0), m.index)],
                   nextIndex := n.nextIndex[from := m.index + 1]);
      SendToUnpromising(n1, from, PendingReadFor(n1, from));
  }

  lemma LocalUnpromising(n: Node, ev: Event)
    requires !ev.Receive?
    ensures Unpromising(Step(n, ev).actions)
  {
    hide SendAll, OnElectionTimeout, ApplyThrough, Propose, Install, TermAt;
    match ev
    case ElectionTimeout => ElectionUnpromising(n);
    case HeartbeatTimeout => SendAllUnpromising(n.(inFlight := map[]), n.peers, 0);
    case RecoverCommitted => ApplyThroughUnpromising(n, n.commit);
    case ConfirmRead(id) => SendAllUnpromising(n.(waiting := n.waiting[id := PendingRead({n.id}, 0, false)]), n.peers, id);
    case ProposeSession(id, kind, session) => ProposeUnpromising(n, id, Entry(LastIndex(n) + 1, n.term, kind, session, 0, [], []));
    case ProposeSet(id, session, sequence, key, value) =>
      ProposeUnpromising(n, id, Entry(LastIndex(n) + 1, n.term, SetKey, session, sequence, key, value));
    case ProposeDelete(id, session, sequence, key) =>
      ProposeUnpromising(n, id, Entry(LastIndex(n) + 1, n.term, DeleteKey, session, sequence, key, []));
    case _ =>
  }

  lemma ProposeUnpromising(n: Node, proposalId: nat, e: Entry)
    ensures Unpromising(Propose(n, proposalId, e).actions)
  {
    hide SendAll;
    SendAllUnpromising(n.(log := n.log + [e]), n.peers, 0);
  }

  // -------------------------------------------------------------------- what promises

  lemma FinishPromises(n: Node, writes: seq<Write>, from: NodeId, m: Message)
    requires m.AppendRequest?
    ensures var r := FinishAppend(n, writes, from, m); Promises(r.node, r.actions) && PromisesTo(r.actions, from, n.term)
  {
    hide ApplyThrough;
    var target := Min(m.leaderCommit, LastIndex(n));
    var n1 := if target > n.commit then n.(commit := target) else n;
    ApplyThroughUnpromising(n1, n1.commit);
    ApplyThroughVolatile(n1, n1.commit);
  }

  lemma AppendPromises(n: Node, from: NodeId, m: Message)
    requires m.AppendRequest?
    ensures var r := OnAppendRequest(n, from, m); Promises(r.node, r.actions) && PromisesTo(r.actions, from, m.term)
  {
    hide FinishAppend, Recognise, PlanAppend, Matches, ConflictHint, StoreWrites, HardStateIf;
    if n.term <= m.term {
      Refinement.RecogniseKeeps(n, m.term, from);
      var n1 := Recognise(n, m.term, from);
      var hs := HardStateIf(m.term > n.term, n1);
      FinishPromises(n1, hs, from, m);
      match PlanAppend(n1, m.prevIndex + 1, m.entries)
      case Store(truncateFrom, tail) => FinishPromises(StoreEntries(n1, truncateFrom, tail), hs + StoreWrites(truncateFrom, tail), from, m);
      case _ =>
    }
  }

  lemma VotePromises(n: Node, from: NodeId, m: Message)
    requires m.PreVoteRequest? || m.PreVoteReply? || m.VoteRequest?
    ensures var r := OnReceive(n, from, m); Promises(r.node, r.actions)
  {
    hide StartElection;
    if m.PreVoteReply? { ElectionUnpromising(n.(preVotes := n.preVotes + {from})); }
  }

  /** Every step keeps its word in its own new state. */
  lemma StepPromises(n: Node, ev: Event)
    ensures var r := Step(n, ev); Promises(r.node, r.actions)
  {
    if ev.Receive? {
      hide OnAppendRequest, OnVoteReply, OnAppendReply, OnSnapshotReply;
      var from, m := ev.from, ev.msg;
      match m
      case AppendRequest(_, _, _, _, _, _, _) => AppendPromises(n, from, m);
      case SnapshotRequest(_, _, _, _, _) =>
      case VoteReply(_, _) => LeaderUnpromising(n, from, m);
      case AppendReply(_, _, _, _, _, _, _) => LeaderUnpromising(n, from, m);
      case SnapshotReply(_, _, _, _, _, _) => LeaderUnpromising(n, from, m);
      case _ => VotePromises(n, from, m);
    } else {
      hide Step;
      LocalUnpromising(n, ev);
    }
  }

  // ------------------------------------------------------------------ acknowledgements

  predicate IsAck(m: Message) { m.AppendReply? && m.success }

  /** An acknowledgement answers a request of its Term. */
  lemma AckAnswers(n: Node, ev: Event, a: Action)
    requires a in Step(n, ev).actions && a.Send? && IsAck(a.msg)
    ensures ev.Receive? && ev.msg.AppendRequest? && a.to == ev.from && a.msg.term == ev.msg.term
  {
    assert Promise(a);
    if ev.Receive? {
      hide OnAppendRequest, OnVoteReply, OnAppendReply, OnSnapshotReply, StartElection;
      var from, m := ev.from, ev.msg;
      match m
      case AppendRequest(_, _, _, _, _, _, _) => AppendPromises(n, from, m);
      case VoteReply(_, _) => LeaderUnpromising(n, from, m);
      case AppendReply(_, _, _, _, _, _, _) => LeaderUnpromising(n, from, m);
      case SnapshotReply(_, _, _, _, _, _) => LeaderUnpromising(n, from, m);
      case PreVoteReply(_, _, _) => ElectionUnpromising(n.(preVotes := n.preVotes + {from}));
      case _ =>
    } else {
      hide Step;
      LocalUnpromising(n, ev);
    }
  }

  /** The acknowledgement is as the Follower's log was, and answers a request on
      its way. */
  ghost predicate AckedAt(c: Cluster, c': Cluster, p: Packet) {
    && p in c'.net && IsAck(p.msg)
    && p.from in c'.hosts && c'.hosts[p.from].node.term == p.msg.term && LastIndex(c'.hosts[p.from].node) == p.msg.matchIndex
    && exists q :: q in c.net && q.msg.AppendRequest? && q.from == p.to && q.msg.term == p.msg.term
  }

  lemma StepAcks(rules: Rules, c: Cluster, c': Cluster, p: Packet)
    requires NextUnder(rules, c, c') && p in c'.net && p !in c.net && IsAck(p.msg)
    ensures AckedAt(c, c', p)
  {
    hide Step, Consume, NewImage, Logged, RecoveredAt, RestartGuarded;
    var id, stim :| StepUnder(rules, c, c', id, stim);
    var n := c.hosts[id].node;
    var r := Step(n, EventOf(n, stim));
    assert c' == Run(c, id, stim);
    var a :| a in r.actions && a.Send? && p == Packet(id, a.to, a.msg, NewImage(c.hosts[id], stim, r.node.base));
    StepPromises(n, EventOf(n, stim));
    assert Backs(r.node, a);
    AckAnswers(n, EventOf(n, stim), a);
    assert stim.packet in c.net;
  }

  /** Where in the run an acknowledgement was sent. */
  lemma {:induction false} AckSent(rules: Rules, run: seq<Cluster>, p: Packet) returns (k: nat)
    requires IsRunUnder(rules, run) && p in run[|run| - 1].net && IsAck(p.msg)
    ensures 0 < k < |run| && AckedAt(run[k - 1], run[k], p)
    decreases |run|
  {
    hide NextUnder, AckedAt;
    k := |run| - 1;
    assert k > 0;
    if p in run[k - 1].net {
      k := AckSent(rules, run[..k], p);
    } else {
      assert NextUnder(rules, run[k - 1], run[k - 1 + 1]);
      StepAcks(rules, run[k - 1], run[k], p);
    }
  }

  /** In every run, every acknowledgement ever sent is true of its Term's Leader,
      whenever that Leader is looked at and whatever happened to the Follower
      since: the Follower held then what it acknowledged, it was that Leader's,
      and from then on the Leader's log reaches as far. */
  lemma AcksTruthful(run: seq<Cluster>, p: Packet) returns (k: nat)
    requires IsRun(run) && p in run[|run| - 1].net && IsAck(p.msg)
    ensures 0 < k < |run| && AckedAt(run[k - 1], run[k], p)
    ensures forall j, l :: 0 <= j < |run| && l in run[j].hosts && Leading(run[j].hosts[l].node, p.msg.term) ==>
              && l == p.to && (k <= j ==> p.msg.matchIndex <= LastIndex(run[j].hosts[l].node))
              && AgreeUpTo(run[k].hosts[p.from].node, run[j].hosts[l].node, p.msg.matchIndex)
  {
    hide IsRun, AckedAt, AgreeUpTo, Leading;
    k := SentWhere(run, p);
    forall j, l | 0 <= j < |run| && l in run[j].hosts && Leading(run[j].hosts[l].node, p.msg.term)
      ensures l == p.to && (k <= j ==> p.msg.matchIndex <= LastIndex(run[j].hosts[l].node))
      ensures AgreeUpTo(run[k].hosts[p.from].node, run[j].hosts[l].node, p.msg.matchIndex)
    {
      AckHeld(run, k, j, p, l);
    }
  }

  lemma SentWhere(run: seq<Cluster>, p: Packet) returns (k: nat)
    requires IsRun(run) && p in run[|run| - 1].net && IsAck(p.msg)
    ensures 0 < k < |run| && AckedAt(run[k - 1], run[k], p) && p.from in run[k].hosts
  {
    k := AckSent(GUARDED, run, p);
  }

  predicate Leading(n: Node, t: nat) { n.role == Leader && n.term == t }

  lemma AckHeld(run: seq<Cluster>, k: nat, j: nat, p: Packet, l: NodeId)
    requires IsRun(run) && 0 < k < |run| && AckedAt(run[k - 1], run[k], p)
    requires j < |run| && l in run[j].hosts && Leading(run[j].hosts[l].node, p.msg.term)
    ensures l == p.to && (k <= j ==> p.msg.matchIndex <= LastIndex(run[j].hosts[l].node))
    ensures AgreeUpTo(run[k].hosts[p.from].node, run[j].hosts[l].node, p.msg.matchIndex)
  {
    hide IsRun, Coupled, NodeView, LogView, AgreeUpTo, Inv, PacketView, Grows;
    var gs := RunExplained(run);
    var f, n := run[k].hosts[p.from].node, run[j].hosts[l].node;
    assert Coupled(run[k], gs[k]) && Coupled(run[j], gs[j]) && Coupled(run[k - 1], gs[k - 1]);
    ViewsOf(run[k], gs[k], p.from);
    ViewsOf(run[j], gs[j], l);
    InNet(run[k], gs[k], p);
    var q :| q in run[k - 1].net && q.msg.AppendRequest? && q.from == p.to && q.msg.term == p.msg.term;
    InNet(run[k - 1], gs[k - 1], q);
    if k <= j {
      assert Grows(gs[k - 1].p, gs[j].p) && Grows(gs[k].p, gs[j].p);
    } else {
      assert Grows(gs[j].p, gs[k - 1].p) && Grows(gs[j].p, gs[k].p);
    }
    LeaderAddressed(gs[k - 1], gs[j], run[j].asked, run[j].limit, q, l, n);
    AckedShares(gs[k], gs[j], run[k].limit, run[k].asked, run[j].asked, p, l, f, n);
    var m := Min(LastIndex(f), LastIndex(n));
    SharedAgree(gs[k].p, gs[j].p, p.from, l, f, n, m);
    AgreeFurther(f, n, m, p.msg.matchIndex);
  }

  lemma LeaderAddressed(g: Ghost, g': Ghost, asked: map<ReadKey, nat>, limit: int, q: Packet, l: NodeId, n: Node)
    requires PacketView(g, limit, q) && q.msg.AppendRequest? && NodeView(g', asked, l, n) && Leading(n, q.msg.term)
    requires Grows(g.p, g'.p) || Grows(g'.p, g.p)
    ensures l == q.from
  {
  }

  lemma AckedShares(g: Ghost, g': Ghost, limit: int, asked: map<ReadKey, nat>, asked': map<ReadKey, nat>, p: Packet, l: NodeId, f: Node, n: Node)
    requires IsAck(p.msg) && PacketView(g, limit, p) && NodeView(g, asked, p.from, f) && f.term == p.msg.term
    requires NodeView(g', asked', l, n) && Leading(n, p.msg.term) && (Grows(g.p, g'.p) || Grows(g'.p, g.p))
    ensures Shares(g.p.log[p.from], g'.p.log[l], Min(LastIndex(f), LastIndex(n)))
    ensures Grows(g.p, g'.p) ==> LastIndex(f) <= LastIndex(n)
  {
    LastTermIs(g.p, p.from, f);
    LastTermIs(g'.p, l, n);
    var a, b, t := g.p.log[p.from], g'.p.log[l], p.msg.term;
    assert Shares(a, g.p.tlog[t], |a|) && b == g'.p.tlog[t];
  }

  lemma AgreeFurther(f: Node, n: Node, m: nat, k: nat)
    requires AgreeUpTo(f, n, m) && m == Min(LastIndex(f), LastIndex(n)) && k <= LastIndex(f)
    ensures AgreeUpTo(f, n, k)
  {
  }

  lemma {:induction false} AppliedIn(actions: seq<Action>, e: Entry)
    requires ApplyEntry(e) in actions
    ensures e in Applied(actions)
    decreases |actions|
  {
    var init := actions[..|actions| - 1];
    if ApplyEntry(e) in init {
      AppliedIn(init, e);
    } else {
      assert actions == init + [actions[|actions| - 1]];
      assert Applied(actions)[|Applied(init)|] == e;
    }
  }

  /** What the disk holds once a step's writes are made. */
  function DiskAfter(n: Node, r: StepResult): Durable { ApplyWrites(DurableOf(n), r.writes) }

  /** In every run, when the effects of a step are handed out, a granted vote is
      on disk, an acknowledged log is on disk to its end, and an applied entry
      is in the committed part of the log on disk. */
  lemma DurableBeforeVisible(c: Cluster, id: NodeId, stim: Stimulus, a: Action)
    requires Reachable(c) && Enabled(c, id, stim) && Guarded(c, id, stim)
    requires a in Step(c.hosts[id].node, EventOf(c.hosts[id].node, stim)).actions
    ensures var n := c.hosts[id].node;
            var d := DiskAfter(n, Step(n, EventOf(n, stim)));
            && (a.Send? && a.msg.VoteReply? && a.msg.granted ==> d.term == a.msg.term && d.votedFor == a.to)
            && (a.Send? && a.msg.AppendReply? && a.msg.success ==> d.term == a.msg.term && Last(d) == a.msg.matchIndex)
            && (a.ApplyEntry? ==> d.base < a.entry.index <= d.commit <= Last(d) && d.log[a.entry.index - d.base - 1] == a.entry)
  {
    hide Coupled, Reachable, Step, NodeView, Inv, Run;
    var g := ReachableCoupled(c);
    var n := c.hosts[id].node;
    var r := Step(n, EventOf(n, stim));
    ViewsOf(c, g, id);
    NodeSound(g, c.asked, id, n);
    WritesCover(n, EventOf(n, stim));
    StepPromises(n, EventOf(n, stim));
    assert Backs(r.node, a);
    if a.ApplyEntry? {
      var g' := RunOk(c, g, id, stim);
      RunNode(c, id, stim);
      ViewsOf(Run(c, id, stim), g', id);
      AppliedCovered(g', Run(c, id, stim).asked, id, n, r, EventOf(n, stim), a.entry);
    }
  }

  lemma RunNode(c: Cluster, id: NodeId, stim: Stimulus)
    requires id in c.hosts
    ensures id in Run(c, id, stim).hosts && Run(c, id, stim).hosts[id].node == Step(c.hosts[id].node, EventOf(c.hosts[id].node, stim)).node
  {
  }

  lemma AppliedCovered(g: Ghost, asked: map<ReadKey, nat>, id: NodeId, n: Node, r: StepResult, ev: Event, e: Entry)
    requires Inv(g.p) && Sound(n) && r == Step(n, ev) && NodeView(g, asked, id, r.node) && ApplyEntry(e) in r.actions
    ensures r.node.base < e.index <= r.node.commit <= LastIndex(r.node) && r.node.log[e.index - r.node.base - 1] == e
  {
    hide Step, Applied;
    NodeSound(g, asked, id, r.node);
    LogIndexed(g, asked, id, r.node);
    if ev.ReceiveSnapshot? || ev.SnapshotCompacted? {
      NoneApplied(n, ev);
    } else {
      StepApplies(n, ev);
      AppliedIn(r.actions, e);
      var a, b := n.lastApplied - n.base, r.node.lastApplied - n.base;
      var i :| 0 <= i < b - a && r.node.log[a..b][i] == e;
      assert r.node.log[a + i] == e;
    }
  }

  lemma LogIndexed(g: Ghost, asked: map<ReadKey, nat>, id: NodeId, n: Node)
    requires Inv(g.p) && NodeView(g, asked, id, n)
    ensures WellIndexed(n.log, n.base)
  {
    assert NodeLogOk(g.p, id);
  }

  lemma NoneApplied(n: Node, ev: Event)
    requires ev.ReceiveSnapshot? || ev.SnapshotCompacted?
    ensures forall a :: a in Step(n, ev).actions ==> !a.ApplyEntry?
  {
    hide Install, TermAt;
  }
}
