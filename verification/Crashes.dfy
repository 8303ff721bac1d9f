/** A crash after any prefix of a step's writes, followed by recovery, keeps the
    coupling: whatever part of the step reached the disk is a state the protocol
    allows on its own. */
module Crashes {
  import opened Types
  import opened Messages
  import opened Node
  import opened Cluster
  import opened Protocol
  import opened ProtocolProofs
  import opened Coupling
  import opened Framing
  import opened Effects
  import opened Elections
  import opened FollowerLog
  import opened Followers
  import opened Leaders
  import opened Snapshots
  import opened Machines
  import opened Durability
  import opened Steps
  import Sessions

  // -------------------------------------------------------------------- restart

  /** A crash and a restart from exactly the durable state it interrupted. */
  function Exact(c: Cluster, id: NodeId, stim: Stimulus, k: nat): Cluster
    requires id in c.hosts
    requires k <= |Step(c.hosts[id].node, EventOf(c.hosts[id].node, stim)).writes|
  {
    Resume(c, id, stim, k, DurableAt(c, id, stim, k))
  }

  lemma RestartView(g: Ghost, asked: map<ReadKey, nat>, id: NodeId, n: Node, peers: seq<NodeId>)
    requires NodeView(g, asked, id, n) && IsPeerList(g.p.members, id, peers)
    ensures NodeView(g, asked, id, Restart(id, peers, DurableOf(n)))
  {
    QuietView(g, asked, id, Restart(id, peers, DurableOf(n)));
  }

  /** Recovery restores the Snapshot image and applies the committed entries after it. */
  lemma RestartOk(g: Ghost, asked: map<ReadKey, nat>, limit: int, id: NodeId, n: Node, peers: seq<NodeId>, image: Sessions.Machine)
    requires Inv(g.p) && NodeView(g, asked, id, n) && IsPeerList(g.p.members, id, peers) && ImageOk(g.p, limit, id, n, image)
    ensures var fresh' := Restart(id, peers, DurableOf(n));
            var e := ApplyThrough(fresh', fresh'.commit);
            && NodeView(g, asked, id, e.node) && ActionsOk(g, limit, id, image, e.actions)
            && HostView(g.p, limit, id, Host(e.node, Consume(image, image, e.actions), image))
  {
    hide Inv, NodeView, ActionsOk, IsPeerList, Applied, Consume, ApplyThrough;
    var fresh' := Restart(id, peers, DurableOf(n));
    RestartView(g, asked, id, n, peers);
    NodeSound(g, asked, id, fresh');
    ApplyThroughOk(g, asked, limit, id, fresh', image, fresh'.commit);
    ApplyThroughApplies(fresh', fresh'.commit);
    var e := ApplyThrough(fresh', fresh'.commit);
    ConsumeReplays(image, image, e.actions);
    ViewLog(g, asked, id, fresh');
    AppliedMachine(limit, g.p.log[id], n.base, n.base, e.node.lastApplied, Applied(e.actions), image);
  }

  lemma PeersOf(g: Ghost, g': Ghost, asked: map<ReadKey, nat>, id: NodeId, n: Node)
    requires NodeView(g, asked, id, n) && GhostEvolves(g, g', id)
    ensures IsPeerList(g'.p.members, id, n.peers)
  {
  }

  /** The history g' explains the Node n' whose durable state the crash left. */
  ghost predicate Survives(c: Cluster, g: Ghost, g': Ghost, id: NodeId, n': Node, image: Sessions.Machine) {
    && Inv(g'.p) && GhostEvolves(g, g', id) && g'.asks == g.asks
    && NodeView(g', c.asked, id, n') && ImageOk(g'.p, c.limit, id, n', image)
  }

  lemma CrashAssembled(c: Cluster, g: Ghost, g': Ghost, id: NodeId, stim: Stimulus, k: nat, n': Node, image: Sessions.Machine)
    requires Coupled(c, g) && id in c.hosts && k <= |Step(c.hosts[id].node, EventOf(c.hosts[id].node, stim)).writes|
    requires Survives(c, g, g', id, n', image) && image == NewImage(c.hosts[id], stim, n'.base)
    requires DurableOf(n') == ApplyWrites(DurableOf(c.hosts[id].node), Step(c.hosts[id].node, EventOf(c.hosts[id].node, stim)).writes[..k])
    ensures Coupled(Exact(c, id, stim, k), g')
  {
    hide Coupled, Inv, GhostEvolves, NodeView, HostView, ActionsOk, Step, PacketView, SeenView, Consume, ImageOk, IsPeerList, ApplyThrough, AskedOk, AsksOk;
    var h := c.hosts[id];
    ActingNode(c, g, id);
    PeersOf(g, g', c.asked, id, h.node);
    RestartOk(g', c.asked, c.limit, id, n', h.node.peers, image);
    var fresh' := Restart(id, h.node.peers, DurableOf(n'));
    var e := ApplyThrough(fresh', fresh'.commit);
    ActionPackets(g', c.limit, id, image, e.actions);
    Recouple(c, g, Exact(c, id, stim, k), g', id, {}, Observed(id, e.actions));
  }

  // ------------------------------------------------------ interrupted requests

  lemma StorePrefix(from: nat, tail: seq<Entry>, j: nat)
    requires j <= |StoreWrites(from, tail)| && (from != 0 ==> 0 < j)
    ensures var i := if from != 0 then j - 1 else j;
            i <= |tail| && StoreWrites(from, tail)[..j] == StoreWrites(from, tail[..i])
  {
  }

  lemma PrefixStored(l: seq<Entry>, r: seq<Entry>, base: nat, q: nat, from: nat, tail: seq<Entry>, i: nat)
    requires base <= |l| && |tail| <= q <= |r| && i <= |tail| && (from == 0 || base < from <= |l|)
    requires (if from == 0 then l else l[..from - 1]) + tail == r[..q]
    ensures base <= q - |tail| + i
    ensures (if from == 0 then l[base..] else l[base..][..from - base - 1]) + tail[..i] == r[..q - |tail| + i][base..]
  {
    var kept := if from == 0 then l else l[..from - 1];
    assert kept + tail[..i] == (kept + tail)[..|kept| + i] == r[..q][..q - |tail| + i] == r[..q - |tail| + i];
    StoredSuffix(l, r, base, q - |tail| + i, from, tail[..i]);
  }

  /** Storing part of the entries is storing the Leader's log up to there. */
  lemma PartlyStored(g: Ghost, asked: map<ReadKey, nat>, id: NodeId, n: Node, t: nat, p: nat, q: nat, from: nat, tail: seq<Entry>, i: nat) returns (g': Ghost)
    requires Following(g, asked, id, n, t) && PlanIs(g.p.log[id], g.p.tlog[t], n, p, q, Store(from, tail)) && i <= |tail|
    ensures Inv(g'.p) && GhostEvolves(g, g', id) && g'.asks == g.asks && NodeView(g', asked, id, StoreEntries(n, from, tail[..i]))
  {
    hide Inv, GhostEvolves, NodeView, AsksOk;
    FollowingParts(g, asked, id, n, t);
    PlanShares(g.p, id, n, t, p, q, from, tail);
    LastTermIs(g.p, id, n);
    assert Planned(g.p.log[id], Store(from, tail)) == (if from == 0 then g.p.log[id] else g.p.log[id][..from - 1]) + tail;
    PrefixStored(g.p.log[id], g.p.tlog[t], n.base, q, from, tail, i);
    g' := StoreUpTo(g, asked, id, n, t, q - |tail|, q - |tail| + i);
  }

  lemma PrefixAppend(n: Node, n1: Node, hs: seq<Write>, writes: seq<Write>, from: nat, tail: seq<Entry>, k: nat, i: nat)
    requires ApplyWrites(DurableOf(n), hs) == DurableOf(n1) && |hs| + (if from != 0 then 1 else 0) + i == k
    requires i <= |tail| && |hs + StoreWrites(from, tail)| <= |writes| && writes[..|hs + StoreWrites(from, tail)|] == hs + StoreWrites(from, tail)
    ensures k <= |writes| && ApplyWrites(DurableOf(n), writes[..k]) == DurableOf(StoreEntries(n1, from, tail[..i]))
  {
    hide ApplyWrites, StoreEntries;
    var sw := StoreWrites(from, tail);
    StorePrefix(from, tail, k - |hs|);
    assert writes[..k] == writes[..|hs + sw|][..k] == hs + sw[..k - |hs|];
    WritesConcat(DurableOf(n), hs, sw[..k - |hs|]);
    StoreWritten(n1, from, tail[..i]);
  }

  /** The part of an AppendRequest that reached the disk. */
  lemma PartlyAppended(g: Ghost, asked: map<ReadKey, nat>, id: NodeId, n: Node, n0: Node, hs: seq<Write>, from: NodeId, m: Message, k: nat) returns (g': Ghost, n': Node)
    requires m.AppendRequest? && Following(g, asked, id, n, m.term) && AppendRequestView(g, from, id, m)
    requires |hs| <= 1 && ApplyWrites(DurableOf(n0), hs) == DurableOf(n) && 0 < k < |CurrentAppend(n, hs, from, m).writes|
    ensures Inv(g'.p) && GhostEvolves(g, g', id) && g'.asks == g.asks && NodeView(g', asked, id, n') && n'.base == n.base
    ensures DurableOf(n') == ApplyWrites(DurableOf(n0), CurrentAppend(n, hs, from, m).writes[..k])
  {
    hide Inv, GhostEvolves, NodeView, AsksOk, PlanIs, AppendRequestView, ApplyWrites, StoreWrites, StoreEntries, ApplyThrough, PlanAppend;
    var writes := CurrentAppend(n, hs, from, m).writes;
    g', n' := g, n;
    GhostSame(g, id);
    PlanFacts(g, asked, id, n, from, m);
    var plan := PlanAppend(n, m.prevIndex + 1, m.entries);
    if k == |hs| {
      assert writes[..k] == hs;
    } else {
      var truncateFrom, tail := plan.truncateFrom, plan.tail;
      StoredCount(truncateFrom, tail);
      var i := if truncateFrom != 0 then k - |hs| - 1 else k - |hs|;
      g' := PartlyStored(g, asked, id, n, m.term, m.prevIndex, m.prevIndex + |m.entries|, truncateFrom, tail, i);
      n' := StoreEntries(n, truncateFrom, tail[..i]);
      PrefixAppend(n0, n, hs, writes, truncateFrom, tail, k, i);
      StoreBase(n, truncateFrom, tail[..i]);
    }
  }

  lemma StoredCount(from: nat, tail: seq<Entry>)
    ensures |StoreWrites(from, tail)| == |tail| + (if from != 0 then 1 else 0)
  {
  }

  lemma StoreBase(n: Node, from: nat, tail: seq<Entry>)
    ensures StoreEntries(n, from, tail).base == n.base
  {
  }

  lemma AppendCrash(g: Ghost, asked: map<ReadKey, nat>, id: NodeId, n: Node, from: NodeId, m: Message, k: nat) returns (g': Ghost, n': Node)
    requires Ready(g, asked, id, n) && AsksOk(g) && m.AppendRequest? && AppendRequestView(g, from, id, m) && from in g.p.members && from != id
    requires 0 < k < |OnAppendRequest(n, from, m).writes|
    ensures Inv(g'.p) && GhostEvolves(g, g', id) && g'.asks == g.asks && NodeView(g', asked, id, n') && n'.base == n.base
    ensures DurableOf(n') == ApplyWrites(DurableOf(n), OnAppendRequest(n, from, m).writes[..k])
  {
    hide Inv, GhostEvolves, NodeView, AsksOk, AppendRequestView, ApplyWrites, CurrentAppend;
    RequestFacts(g, asked, id, n, from, m);
    var n1 := Recognise(n, m.term, from);
    var hs := HardStateIf(m.term > n.term, n1);
    var g1 := RecogniseOk(g, asked, id, n, m.term, from);
    AppendRequestStable(g, g1, id, from, id, m);
    RecogniseCovers(n, m.term, from);
    g', n' := PartlyAppended(g1, asked, id, n1, n, hs, from, m, k);
    GhostTrans(g, g1, g', id);
  }

  lemma TransferCrash(g: Ghost, asked: map<ReadKey, nat>, limit: int, id: NodeId, n: Node, from: NodeId, m: Message, st: Staged, image: Sessions.Machine, k: nat) returns (g': Ghost, n': Node)
    requires Ready(g, asked, id, n) && AsksOk(g) && from != id
    requires m.SnapshotRequest? && SnapshotRequestView(g, limit, from, id, m, image)
    requires 0 < k < |OnSnapshotRequest(n, from, m, st).writes|
    ensures Inv(g'.p) && GhostEvolves(g, g', id) && g'.asks == g.asks && NodeView(g', asked, id, n') && n'.base == n.base
    ensures DurableOf(n') == ApplyWrites(DurableOf(n), OnSnapshotRequest(n, from, m, st).writes[..k])
  {
    hide Inv, GhostEvolves, NodeView, AsksOk, SnapshotRequestView, ApplyWrites;
    TransferFacts(g, asked, limit, id, n, from, m, image);
    n' := Recognise(n, m.term, from);
    g' := RecogniseOk(g, asked, id, n, m.term, from);
    RecogniseCovers(n, m.term, from);
    var hs := HardStateIf(m.term > n.term, n');
    assert OnSnapshotRequest(n, from, m, st).writes[..k] == hs;
  }

  /** Every other step writes at most once, so a crash is before or after it. */
  lemma OneWriteAtMost(n: Node, ev: Event)
    requires !(ev.Receive? && ev.msg.AppendRequest?) && !ev.ReceiveSnapshot?
    ensures |Step(n, ev).writes| <= 1
  {
    hide SendAll, SendTo, AckRead, ApplyThrough, NoteReply;
    match ev
    case ElectionTimeout => assert |StartElection(n.(recentContact := false, leaderId := "", role := PreCandidate, preVotes := {n.id})).writes| == 1;
    case Receive(from, m) =>
      assert m.AppendReply? ==> |CurrentReply(n, from, m, Get(n.inFlight, from, InFlight(0, 0)).leaderCommit).writes| <= 1;
      assert |StartElection(n.(preVotes := n.preVotes + {from})).writes| == 1;
      assert |OnReceive(n, from, m).writes| <= 1;
    case _ =>
  }

  // ---------------------------------------------------------------- whole crashes

  /** Before the first write the Node survives as it was. */
  lemma NothingWritten(c: Cluster, g: Ghost, id: NodeId, stim: Stimulus)
    requires Coupled(c, g) && id in c.hosts
    ensures Coupled(Exact(c, id, stim, 0), g)
  {
    hide Coupled, Inv, GhostEvolves, NodeView, HostView, ImageOk, AskedOk, AsksOk, Step, Exact;
    var n := c.hosts[id].node;
    ActingNode(c, g, id);
    GhostSame(g, id);
    assert Step(n, EventOf(n, stim)).writes[..0] == [];
    CrashAssembled(c, g, g, id, stim, 0, n, c.hosts[id].image);
  }

  lemma ImageKept(g: Ghost, g': Ghost, asked: map<ReadKey, nat>, limit: int, id: NodeId, n: Node, n': Node, image: Sessions.Machine)
    requires Inv(g.p) && Inv(g'.p) && GhostEvolves(g, g', id) && NodeView(g, asked, id, n) && NodeView(g', asked, id, n')
    requires ImageOk(g.p, limit, id, n, image) && n'.base == n.base
    ensures ImageOk(g'.p, limit, id, n', image)
  {
    hide Inv, NodeView, GhostEvolves;
    NodeSound(g, asked, id, n);
    NodeSound(g', asked, id, n');
    GrowsFrom(g, g', id);
    AppliedKept(g, g', asked, asked, id, n, n', n.base);
    ViewLog(g', asked, id, n');
  }

  lemma AfterWriting(c: Cluster, g: Ghost, g': Ghost, id: NodeId, stim: Stimulus, k: nat, n': Node)
    requires Coupled(c, g) && id in c.hosts && k <= |Step(c.hosts[id].node, EventOf(c.hosts[id].node, stim)).writes|
    requires Inv(g'.p) && GhostEvolves(g, g', id) && g'.asks == g.asks && NodeView(g', c.asked, id, n') && n'.base == c.hosts[id].node.base
    requires DurableOf(n') == ApplyWrites(DurableOf(c.hosts[id].node), Step(c.hosts[id].node, EventOf(c.hosts[id].node, stim)).writes[..k])
    ensures Coupled(Exact(c, id, stim, k), g')
  {
    hide Coupled, Inv, GhostEvolves, NodeView, HostView, ImageOk, AskedOk, AsksOk, Step, Exact, ApplyWrites;
    ActingNode(c, g, id);
    ImageKept(g, g', c.asked, c.limit, id, c.hosts[id].node, n', c.hosts[id].image);
    CrashAssembled(c, g, g', id, stim, k, n', c.hosts[id].image);
  }

  lemma FullyWritten(c: Cluster, g: Ghost, id: NodeId, stim: Stimulus)
    requires Coupled(c, g) && id in c.hosts
    ensures var n := c.hosts[id].node;
            var r := Step(n, EventOf(n, stim));
            DurableOf(r.node) == ApplyWrites(DurableOf(n), r.writes[..|r.writes|])
  {
    hide Coupled, NodeView, HostView, ImageOk, AskedOk, AsksOk, Step;
    var n := c.hosts[id].node;
    ActingNode(c, g, id);
    NodeSound(g, c.asked, id, n);
    WritesCover(n, EventOf(n, stim));
    var r := Step(n, EventOf(n, stim));
    assert r.writes[..|r.writes|] == r.writes;
  }

  lemma PlainCrash(c: Cluster, g: Ghost, id: NodeId, stim: Stimulus, k: nat) returns (g': Ghost)
    requires Coupled(c, g) && Enabled(c, id, stim) && Guarded(c, id, stim) && (stim.Local? || stim.Message?)
    requires 0 < k == |Step(c.hosts[id].node, EventOf(c.hosts[id].node, stim)).writes|
    ensures Coupled(Exact(c, id, stim, k), g') && Grows(g.p, g'.p)
  {
    hide Coupled, Inv, GhostEvolves, NodeView, HostView, ImageOk, AskedOk, AsksOk, Step, Exact, ApplyWrites, PacketView, Applies;
    var h := c.hosts[id];
    ActingNode(c, g, id);
    if stim.Local? {
      ReadsWriteNothing(h.node, stim.event);
      g' := LocalOk(g, c.asked, c.limit, id, h.node, h.image, stim.event);
    } else {
      InNet(c, g, stim.packet);
      g' := MessageOk(g, c.asked, c.limit, id, h.node, h.image, stim.packet);
    }
    var r := Step(h.node, EventOf(h.node, stim));
    NodeSound(g, c.asked, id, h.node);
    StepApplies(h.node, EventOf(h.node, stim));
    AppliesBase(h.node, r);
    GrowsFrom(g, g', id);
    FullyWritten(c, g, id, stim);
    AfterWriting(c, g, g', id, stim, k, r.node);
  }

  lemma ReadsWriteNothing(n: Node, ev: Event)
    ensures ev.ConfirmRead? ==> Step(n, ev).writes == []
  {
  }

  lemma ChunkCrash(c: Cluster, g: Ghost, id: NodeId, stim: Stimulus, k: nat) returns (g': Ghost)
    requires Coupled(c, g) && Enabled(c, id, stim) && stim.Chunk?
    requires 0 < k <= |Step(c.hosts[id].node, EventOf(c.hosts[id].node, stim)).writes|
    ensures Coupled(Exact(c, id, stim, k), g') && Grows(g.p, g'.p)
  {
    hide Coupled, Inv, GhostEvolves, NodeView, HostView, ImageOk, AskedOk, AsksOk, Exact, ApplyWrites, OnSnapshotRequest, SnapshotRequestView;
    var h, p := c.hosts[id], stim.packet;
    var r := OnSnapshotRequest(h.node, p.from, p.msg, stim.staged);
    ActingNode(c, g, id);
    ChunkFacts(c, g, p);
    if k < |r.writes| {
      var n';
      g', n' := TransferCrash(g, c.asked, c.limit, id, h.node, p.from, p.msg, stim.staged, p.image, k);
      AfterWriting(c, g, g', id, stim, k, n');
    } else {
      g' := SnapshotRequestOk(g, c.asked, c.limit, id, h.node, h.image, p.from, p.msg, stim.staged, p.image);
      FullyWritten(c, g, id, stim);
      CrashAssembled(c, g, g', id, stim, k, r.node, NewImage(h, stim, r.node.base));
    }
    GrowsFrom(g, g', id);
  }

  lemma CompactionCrash(c: Cluster, g: Ghost, id: NodeId, stim: Stimulus, k: nat)
    requires Coupled(c, g) && Enabled(c, id, stim) && stim.Compaction?
    requires 0 < k <= |Step(c.hosts[id].node, EventOf(c.hosts[id].node, stim)).writes|
    ensures Coupled(Exact(c, id, stim, k), g)
  {
    hide Coupled, Inv, GhostEvolves, NodeView, HostView, AskedOk, AsksOk, Exact, ApplyWrites;
    var h := c.hosts[id];
    var n, i := h.node, h.node.lastApplied;
    var r := OnCompacted(n, i, TermAt(n, i));
    ActingNode(c, g, id);
    GhostSame(g, id);
    CompactedOk(g, c.asked, c.limit, id, n, i, TermAt(n, i));
    CompactedHost(g, c.limit, id, h, r.node);
    HostImage(g, c.limit, id, Host(r.node, Consume(h.machine, h.machine, []), h.machine));
    FullyWritten(c, g, id, stim);
    CrashAssembled(c, g, g, id, stim, k, r.node, h.machine);
  }

  lemma HostImage(g: Ghost, limit: int, id: NodeId, h: Host)
    requires HostView(g.p, limit, id, h)
    ensures ImageOk(g.p, limit, id, h.node, h.image)
  {
  }

  lemma AppendCrashed(c: Cluster, g: Ghost, id: NodeId, stim: Stimulus, k: nat) returns (g': Ghost)
    requires Coupled(c, g) && Enabled(c, id, stim) && stim.Message? && stim.packet.msg.AppendRequest?
    requires 0 < k < |Step(c.hosts[id].node, EventOf(c.hosts[id].node, stim)).writes|
    ensures Coupled(Exact(c, id, stim, k), g') && Grows(g.p, g'.p)
  {
    hide Coupled, Inv, GhostEvolves, NodeView, HostView, ImageOk, AskedOk, AsksOk, Exact, ApplyWrites, OnAppendRequest, AppendRequestView;
    var h, p := c.hosts[id], stim.packet;
    ActingNode(c, g, id);
    RequestInNet(c, g, p);
    var n';
    g', n' := AppendCrash(g, c.asked, id, h.node, p.from, p.msg, k);
    GrowsFrom(g, g', id);
    AfterWriting(c, g, g', id, stim, k, n');
  }

  lemma RequestInNet(c: Cluster, g: Ghost, p: Packet)
    requires Coupled(c, g) && p in c.net && p.msg.AppendRequest?
    ensures AppendRequestView(g, p.from, p.to, p.msg) && p.from in g.p.members && p.from != p.to
  {
    InNet(c, g, p);
  }

  /** Every exact restart, wherever the crash interrupts the step, keeps the coupling. */
  lemma CrashOk(c: Cluster, g: Ghost, id: NodeId, stim: Stimulus, k: nat) returns (g': Ghost)
    requires Coupled(c, g) && Enabled(c, id, stim) && Guarded(c, id, stim)
    requires k <= |Step(c.hosts[id].node, EventOf(c.hosts[id].node, stim)).writes|
    ensures Coupled(Exact(c, id, stim, k), g') && Grows(g.p, g'.p)
  {
    hide Coupled, Exact, Step, Grows, GhostEvolves;
    var n := c.hosts[id].node;
    g' := g;
    GhostSame(g, id);
    GrowsFrom(g, g, id);
    if k == 0 {
      NothingWritten(c, g, id, stim);
    } else if stim.Chunk? {
      g' := ChunkCrash(c, g, id, stim, k);
    } else if stim.Compaction? {
      CompactionCrash(c, g, id, stim, k);
    } else if k == |Step(n, EventOf(n, stim)).writes| {
      g' := PlainCrash(c, g, id, stim, k);
    } else {
      if !(stim.Message? && stim.packet.msg.AppendRequest?) { OneWriteAtMost(n, EventOf(n, stim)); }
      g' := AppendCrashed(c, g, id, stim, k);
    }
  }
}
