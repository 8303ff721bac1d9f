/** Every complete step of any Node keeps the coupling. */
module Steps {
  import opened Types
  import opened Messages
  import opened Node
  import opened Cluster
  import opened Protocol
  import opened ProtocolProofs
  import opened Coupling
  import opened Framing
  import opened Effects
  import opened Elections
  import opened Followers
  import opened Leaders
  import opened Snapshots
  import opened Machines
  import Sessions

  // ------------------------------------------------------------ every handler

  lemma AsksFromAsked(g: Ghost, asked: map<ReadKey, nat>)
    requires AskedOk(g, asked) && g.asks.Keys == asked.Keys
    ensures AsksOk(g)
  {
    forall k, u | k in g.asks && u in g.asks[k] ensures u in g.p.tlog {
      assert AskView(g, asked, k);
    }
  }

  ghost predicate Acting(g: Ghost, asked: map<ReadKey, nat>, limit: int, id: NodeId, n: Node, image: Sessions.Machine) {
    Ready(g, asked, id, n) && AskedOk(g, asked) && AsksOk(g) && ImageOk(g.p, limit, id, n, image)
  }

  lemma LocalOk(g: Ghost, asked: map<ReadKey, nat>, limit: int, id: NodeId, n: Node, image: Sessions.Machine, ev: Event) returns (g': Ghost)
    requires Acting(g, asked, limit, id, n, image)
    requires ev.ElectionTimeout? || ev.HeartbeatTimeout? || ev.CheckQuorumTimeout? || ev.AppendFailed?
             || ev.ProposeSession? || ev.ProposeSet? || ev.ProposeDelete?
    ensures Done(g, g', asked, limit, id, image, Step(n, ev))
  {
    hide Inv, Done, NodeView, AskedOk, AsksOk, ImageOk, OnElectionTimeout, OnHeartbeat, OnCheckQuorum, OnPropose, OnAppendFailed;
    g' := g;
    match ev
    case ElectionTimeout => g' := ElectionTimeoutOk(g, asked, limit, id, n, image);
    case HeartbeatTimeout => HeartbeatOk(g, asked, limit, id, n, image);
    case CheckQuorumTimeout => CheckQuorumOk(g, asked, limit, id, n, image);
    case AppendFailed(to, requestId) => AppendFailedOk(g, asked, limit, id, n, image, to, requestId);
    case _ => g' := OnProposeOk(g, asked, limit, id, n, image, ev);
  }

  lemma MessageOk(g: Ghost, asked: map<ReadKey, nat>, limit: int, id: NodeId, n: Node, image: Sessions.Machine, p: Packet) returns (g': Ghost)
    requires Acting(g, asked, limit, id, n, image)
    requires PacketView(g, limit, p) && p.to == id && !p.msg.SnapshotRequest?
    requires StaleRejection(p.msg) ==> !ActsOn(n, p.from, p.msg)
    ensures Done(g, g', asked, limit, id, image, Step(n, Receive(p.from, p.msg)))
  {
    hide Inv, Done, NodeView, AskedOk, AsksOk, ImageOk;
    hide AppendRequestView, AppendReplyView, VoteRequestView, SnapshotReplyView;
    hide OnPreVoteRequest, OnPreVoteReply, OnVoteRequest, OnVoteReply, OnAppendRequest, OnAppendReply, OnSnapshotReply;
    match p.msg
    case PreVoteRequest(_, _, _) => g' := g; PreVoteRequestOk(g, asked, limit, id, n, image, p.from, p.msg);
    case PreVoteReply(_, _, _) => g' := PreVoteReplyOk(g, asked, limit, id, n, image, p.from, p.msg);
    case VoteRequest(_, _, _) => g' := VoteRequestOk(g, asked, limit, id, n, image, p.from, p.msg);
    case VoteReply(_, _) => g' := VoteReplyOk(g, asked, limit, id, n, image, p.from, p.msg);
    case AppendRequest(_, _, _, _, _, _, _) => g' := AppendRequestOk(g, asked, limit, id, n, image, p.from, p.msg);
    case AppendReply(_, _, _, _, _, _, _) => g' := AppendReplyOk(g, asked, limit, id, n, image, p.from, p.msg);
    case SnapshotReply(_, _, _, _, _, _) => g' := SnapshotReplyOk(g, asked, limit, id, n, image, p.from, p.msg);
  }

  // --------------------------------------------------------- the state machine

  /** What was applied before a step is still the start of the log after it. */
  lemma AppliedKept(g: Ghost, g': Ghost, asked: map<ReadKey, nat>, asked': map<ReadKey, nat>, id: NodeId, n: Node, n': Node, k: nat)
    requires Inv(g.p) && Inv(g'.p) && Grows(g.p, g'.p) && NodeView(g, asked, id, n) && NodeView(g', asked', id, n')
    requires k <= n.commit && k <= n'.commit
    ensures k <= |g.p.log[id]| && k <= |g'.p.log[id]| && g'.p.log[id][..k] == g.p.log[id][..k]
  {
    SettledChosen(g.p, n.term, g.p.log[id], n.commit);
    SettledChosen(g'.p, n'.term, g'.p.log[id], n'.commit);
    SharesLess(g.p.log[id], g.p.chosen, k, n.commit);
    SharesLess(g'.p.log[id], g'.p.chosen, k, n'.commit);
    assert g'.p.chosen[..k] == g.p.chosen[..k];
  }

  lemma AppliedMachine(limit: int, log: seq<Entry>, base: nat, a: nat, b: nat, entries: seq<Entry>, m: Sessions.Machine)
    requires base <= a <= b <= |log| && entries == log[base..][a - base..b - base]
    requires m == Sessions.Replay(Sessions.Empty(limit), log[..a])
    ensures Sessions.Replay(m, entries) == Sessions.Replay(Sessions.Empty(limit), log[..b])
  {
    assert entries == log[a..b];
    ReplayConcat(Sessions.Empty(limit), log[..a], log[a..b]);
    assert log[..a] + log[a..b] == log[..b];
  }

  lemma HostKept(g: Ghost, g': Ghost, asked: map<ReadKey, nat>, asked': map<ReadKey, nat>, limit: int, id: NodeId, h: Host, r: StepResult)
    requires Inv(g.p) && Inv(g'.p) && Grows(g.p, g'.p) && NodeView(g, asked, id, h.node) && NodeView(g', asked', id, r.node)
    requires HostView(g.p, limit, id, h) && Applies(h.node, r)
    ensures HostView(g'.p, limit, id, Host(r.node, Consume(h.machine, h.image, r.actions), h.image))
  {
    hide Inv, NodeView, Grows, Applied, Consume;
    var n, n' := h.node, r.node;
    NodeSound(g, asked, id, n);
    NodeSound(g', asked', id, n');
    AppliedKept(g, g', asked, asked', id, n, n', n.lastApplied);
    ViewLog(g', asked', id, n');
    ConsumeReplays(h.machine, h.image, r.actions);
    var log := g'.p.log[id];
    AppliedMachine(limit, log, n.base, n.lastApplied, n'.lastApplied, Applied(r.actions), h.machine);
    assert log[..n.base] == log[..n.lastApplied][..n.base] == g.p.log[id][..n.lastApplied][..n.base] == g.p.log[id][..n.base];
  }

  lemma ViewLog(g: Ghost, asked: map<ReadKey, nat>, id: NodeId, n: Node)
    requires NodeView(g, asked, id, n)
    ensures id in g.p.log && n.base <= |g.p.log[id]| && n.log == g.p.log[id][n.base..]
  {
  }

  lemma NodeSound(g: Ghost, asked: map<ReadKey, nat>, id: NodeId, n: Node)
    requires NodeView(g, asked, id, n)
    ensures Sound(n)
  {
    LastTermIs(g.p, id, n);
  }

  lemma ActionPackets(g: Ghost, limit: int, id: NodeId, image: Sessions.Machine, actions: seq<Action>)
    requires ActionsOk(g, limit, id, image, actions)
    ensures forall p {:trigger PacketView(g, limit, p)} :: p in Packets(id, image, actions) ==> PacketView(g, limit, p)
    ensures forall o {:trigger SeenView(g.p, o)} :: o in Observed(id, actions) ==> SeenView(g.p, o)
  {
    forall p | p in Packets(id, image, actions) ensures PacketView(g, limit, p) {
      var a :| a in actions && a.Send? && p == Packet(id, a.to, a.msg, image);
      assert ActionOk(g, limit, id, image, a);
    }
    forall o | o in Observed(id, actions) ensures SeenView(g.p, o) {
      var a :| a in actions && !a.Send? && o == Seen(id, a);
      assert ActionOk(g, limit, id, image, a);
    }
  }

  // ---------------------------------------------------------------- whole steps

  /** The acting Node's share of the coupling. */
  lemma ActingNode(c: Cluster, g: Ghost, id: NodeId)
    requires Coupled(c, g) && id in c.hosts
    ensures var h := c.hosts[id];
            && Acting(g, c.asked, c.limit, id, h.node, h.image) && HostView(g.p, c.limit, id, h)
            && g.asks.Keys == c.asked.Keys && (c.high > 0 ==> exists p :: p in g.p.commits && c.high <= p.index)
  {
    var h := c.hosts[id];
    assert NodeView(g, c.asked, id, h.node) && HostView(g.p, c.limit, id, h);
    assert AskedOk(g, c.asked);
    AsksFromAsked(g, c.asked);
  }

  lemma Assembled(c: Cluster, g: Ghost, g': Ghost, id: NodeId, stim: Stimulus, r: StepResult, image: Sessions.Machine)
    requires Coupled(c, g) && id in c.hosts && !Accepts(c.hosts[id].node, stim)
    requires r == Step(c.hosts[id].node, EventOf(c.hosts[id].node, stim)) && image == NewImage(c.hosts[id], stim, r.node.base)
    requires Done(g, g', c.asked, c.limit, id, image, r) && g.asks.Keys == c.asked.Keys
    requires HostView(g'.p, c.limit, id, Host(r.node, Consume(c.hosts[id].machine, image, r.actions), image))
    ensures Coupled(Run(c, id, stim), g')
  {
    hide Coupled, Inv, GhostEvolves, NodeView, HostView, ActionsOk, Step, PacketView, SeenView, Consume;
    ActionPackets(g', c.limit, id, image, r.actions);
    Recouple(c, g, Run(c, id, stim), g', id, Packets(id, image, r.actions), Observed(id, r.actions));
  }

  lemma PlainRun(c: Cluster, g: Ghost, g': Ghost, id: NodeId, stim: Stimulus)
    requires Coupled(c, g) && Enabled(c, id, stim) && (stim.Local? || stim.Message?) && !Accepts(c.hosts[id].node, stim)
    requires Done(g, g', c.asked, c.limit, id, c.hosts[id].image, Step(c.hosts[id].node, EventOf(c.hosts[id].node, stim)))
    ensures Coupled(Run(c, id, stim), g')
  {
    hide Coupled, Inv, GhostEvolves, NodeView, HostView, ActionsOk, Step, ImageOk, AskedOk, AsksOk;
    var h := c.hosts[id];
    var r := Step(h.node, EventOf(h.node, stim));
    ActingNode(c, g, id);
    NodeSound(g, c.asked, id, h.node);
    StepApplies(h.node, EventOf(h.node, stim));
    GrowsFrom(g, g', id);
    HostKept(g, g', c.asked, c.asked, c.limit, id, h, r);
    Assembled(c, g, g', id, stim, r, h.image);
  }

  lemma GrowsFrom(g: Ghost, g': Ghost, id: NodeId)
    requires GhostEvolves(g, g', id)
    ensures Grows(g.p, g'.p)
  {
  }

  lemma DoneGrows(g: Ghost, g': Ghost, asked: map<ReadKey, nat>, limit: int, id: NodeId, image: Sessions.Machine, r: StepResult)
    requires Done(g, g', asked, limit, id, image, r)
    ensures Grows(g.p, g'.p)
  {
  }

  lemma LocalRun(c: Cluster, g: Ghost, id: NodeId, stim: Stimulus) returns (g': Ghost)
    requires Coupled(c, g) && Enabled(c, id, stim) && stim.Local? && !stim.event.ConfirmRead?
    ensures Coupled(Run(c, id, stim), g') && Grows(g.p, g'.p)
  {
    hide Coupled, Acting, Done, Run, Step;
    ActingNode(c, g, id);
    g' := LocalOk(g, c.asked, c.limit, id, c.hosts[id].node, c.hosts[id].image, stim.event);
    DoneGrows(g, g', c.asked, c.limit, id, c.hosts[id].image, Step(c.hosts[id].node, stim.event));
    PlainRun(c, g, g', id, stim);
  }

  lemma MessageRun(c: Cluster, g: Ghost, id: NodeId, stim: Stimulus) returns (g': Ghost)
    requires Coupled(c, g) && Enabled(c, id, stim) && Guarded(c, id, stim) && stim.Message?
    ensures Coupled(Run(c, id, stim), g') && Grows(g.p, g'.p)
  {
    hide Coupled, Acting, Done, Run, Step, PacketView;
    InNet(c, g, stim.packet);
    ActingNode(c, g, id);
    g' := MessageOk(g, c.asked, c.limit, id, c.hosts[id].node, c.hosts[id].image, stim.packet);
    DoneGrows(g, g', c.asked, c.limit, id, c.hosts[id].image, Step(c.hosts[id].node, EventOf(c.hosts[id].node, stim)));
    PlainRun(c, g, g', id, stim);
  }

  lemma InNet(c: Cluster, g: Ghost, p: Packet)
    requires Coupled(c, g) && p in c.net
    ensures PacketView(g, c.limit, p)
  {
  }

  lemma ReadRun(c: Cluster, g: Ghost, id: NodeId, stim: Stimulus) returns (g': Ghost)
    requires Coupled(c, g) && Enabled(c, id, stim) && stim.Local? && stim.event.ConfirmRead?
    ensures Coupled(Run(c, id, stim), g') && Grows(g.p, g'.p)
  {
    hide Coupled, Inv, GhostEvolves, NodeView, HostView, ActionsOk, ImageOk, AskedOk, AsksOk, OnConfirmRead, PacketView, SeenView, Consume, AskView, Step, Applies, Logged, Grows;
    ConfirmReadSteps(c.hosts[id].node, stim.event);
    var h, readId := c.hosts[id], stim.event.readId;
    var r := OnConfirmRead(h.node, readId);
    ActingNode(c, g, id);
    g' := ConfirmReadOk(g, c.asked, c.high, c.limit, id, h.node, h.image, readId);
    NodeSound(g, c.asked, id, h.node);
    ConfirmReadApplies(h.node, readId);
    GrowsFrom(g, g', id);
    var c' := Run(c, id, stim);
    assert r.node.base == h.node.base by { AppliesBase(h.node, r); }
    HostKept(g, g', c.asked, c'.asked, c.limit, id, h, r);
    ActionPackets(g', c.limit, id, h.image, r.actions);
    Recouple(c, g, c', g', id, Packets(id, h.image, r.actions), Observed(id, r.actions));
  }

  lemma ConfirmReadSteps(n: Node, ev: Event)
    requires ev.ConfirmRead?
    ensures Step(n, ev) == OnConfirmRead(n, ev.readId)
  {
  }

  lemma AppliesBase(n: Node, r: StepResult)
    requires Applies(n, r)
    ensures r.node.base == n.base
  {
  }

  // ------------------------------------------------------ Snapshots, compaction

  lemma CompactionRun(c: Cluster, g: Ghost, id: NodeId, stim: Stimulus) returns (g': Ghost)
    requires Coupled(c, g) && Enabled(c, id, stim) && stim.Compaction?
    ensures Coupled(Run(c, id, stim), g') && Grows(g.p, g'.p)
  {
    hide Coupled, Inv, GhostEvolves, NodeView, HostView, ActionsOk, ImageOk, AskedOk, AsksOk, OnCompacted;
    var h := c.hosts[id];
    var n, k := h.node, h.node.lastApplied;
    var r := OnCompacted(n, k, TermAt(n, k));
    g' := g;
    ActingNode(c, g, id);
    GhostSame(g, id);
    GrowsFrom(g, g, id);
    NoActions(g, c.limit, id, NewImage(h, stim, r.node.base));
    CompactedShape(n, k);
    if CanCompact(n, k, TermAt(n, k)) {
      CompactedOk(g, c.asked, c.limit, id, n, k, TermAt(n, k));
      CompactedHost(g, c.limit, id, h, r.node);
    }
    Assembled(c, g, g, id, stim, r, NewImage(h, stim, r.node.base));
  }

  lemma CompactedShape(n: Node, k: nat)
    ensures var r := OnCompacted(n, k, TermAt(n, k));
            r.actions == [] && (CanCompact(n, k, TermAt(n, k)) ==> r.node.base == k && r.node.lastApplied == n.lastApplied && n.base < k)
            && (!CanCompact(n, k, TermAt(n, k)) ==> r.node == n)
  {
  }

  lemma CompactedHost(g: Ghost, limit: int, id: NodeId, h: Host, n': Node)
    requires HostView(g.p, limit, id, h) && n'.base == h.node.lastApplied == n'.lastApplied
    ensures HostView(g.p, limit, id, Host(n', Consume(h.machine, h.machine, []), h.machine))
  {
  }

  lemma ChunkRun(c: Cluster, g: Ghost, id: NodeId, stim: Stimulus) returns (g': Ghost)
    requires Coupled(c, g) && Enabled(c, id, stim) && stim.Chunk?
    ensures Coupled(Run(c, id, stim), g') && Grows(g.p, g'.p)
  {
    hide Coupled, Inv, GhostEvolves, NodeView, HostView, ActionsOk, ImageOk, AskedOk, AsksOk, OnSnapshotRequest, SnapshotRequestView;
    var h, p := c.hosts[id], stim.packet;
    ChunkFacts(c, g, p);
    var n := h.node;
    var r := OnSnapshotRequest(n, p.from, p.msg, stim.staged);
    ActingNode(c, g, id);
    g' := SnapshotRequestOk(g, c.asked, c.limit, id, n, h.image, p.from, p.msg, stim.staged, p.image);
    NodeSound(g, c.asked, id, n);
    NodeSound(g', c.asked, id, r.node);
    GrowsFrom(g, g', id);
    SnapshotShape(n, p.from, p.msg, stim.staged);
    var image := NewImage(h, stim, r.node.base);
    if r.node.base == n.base {
      SilentStep(n, r);
      HostKept(g, g', c.asked, c.asked, c.limit, id, h, r);
    } else {
      RestoredHost(g', c.limit, id, r, h.machine, image);
    }
    Assembled(c, g, g', id, stim, r, image);
  }

  lemma ChunkFacts(c: Cluster, g: Ghost, p: Packet)
    requires Coupled(c, g) && p in c.net && p.msg.SnapshotRequest?
    ensures SnapshotRequestView(g, c.limit, p.from, p.to, p.msg, p.image) && p.from in g.p.members && p.from != p.to
  {
    InNet(c, g, p);
  }

  /** A step either installs nothing and applies nothing, or restores the image. */
  lemma SnapshotShape(n: Node, from: NodeId, m: Message, st: Staged)
    requires m.SnapshotRequest?
    ensures var r := OnSnapshotRequest(n, from, m, st);
            if r.node.base == n.base then Silent(r.actions) && r.node.lastApplied == n.lastApplied
            else r.node.lastApplied == r.node.base
                 && |r.actions| == 3 && r.actions[1].RestoreSnapshot? && Silent([r.actions[2]])
  {
  }

  lemma RestoredHost(g: Ghost, limit: int, id: NodeId, r: StepResult, machine: Sessions.Machine, image: Sessions.Machine)
    requires r.node.lastApplied == r.node.base && |r.actions| == 3 && r.actions[1].RestoreSnapshot? && Silent([r.actions[2]])
    requires ImageOk(g.p, limit, id, r.node, image)
    ensures HostView(g.p, limit, id, Host(r.node, Consume(machine, image, r.actions), image))
  {
    assert r.actions[2] in [r.actions[2]];
    assert r.actions[..2][..1] == r.actions[..1] && r.actions[..2][1] == r.actions[1];
    assert Consume(machine, image, r.actions[..2]) == image;
  }

  /** Every complete step keeps the coupling. */
  lemma RunOk(c: Cluster, g: Ghost, id: NodeId, stim: Stimulus) returns (g': Ghost)
    requires Coupled(c, g) && Enabled(c, id, stim) && Guarded(c, id, stim)
    ensures Coupled(Run(c, id, stim), g') && Grows(g.p, g'.p)
  {
    hide Coupled, Run, Grows;
    match stim
    case Local(ev) => if ev.ConfirmRead? { g' := ReadRun(c, g, id, stim); } else { g' := LocalRun(c, g, id, stim); }
    case Message(_) => g' := MessageRun(c, g, id, stim);
    case Chunk(_, _) => g' := ChunkRun(c, g, id, stim);
    case Compaction => g' := CompactionRun(c, g, id, stim);
  }
}
