/** Snapshot transfer and compaction keep the coupling. */
module Snapshots {
  import opened Types
  import opened Messages
  import opened Node
  import opened Cluster
  import opened Protocol
  import opened ProtocolProofs
  import opened Coupling
  import opened Stability
  import opened Framing
  import opened Effects
  import opened Elections
  import opened FollowerLog
  import opened Followers
  import opened Leaders
  import Sessions

  lemma SettledVia(s: State, s': State, t: nat, log: seq<Entry>, log': seq<Entry>, k: nat)
    requires Settled(s, t, log, k) && Shares(log', log, k) && s'.commits == s.commits && s'.tlog == s.tlog
    ensures Settled(s', t, log', k)
  {
    if k > 0 {
      var p :| p in s.commits && SettledBy(s, t, log, k, p);
      assert SettledBy(s', t, log', k, p);
    }
  }

  // ------------------------------------------------------- installing a Snapshot

  predicate Keeps(n: Node, m: Message)
    requires m.SnapshotRequest?
  {
    m.index <= LastIndex(n) && TermAt(n, m.index) == m.snapTerm
  }

  /** The Node keeps its suffix exactly when it shares the Snapshot's history. */
  lemma KeepsIffShares(s: State, id: NodeId, n: Node, m: Message)
    requires m.SnapshotRequest? && Inv(s) && LogView(s, id, n) && m.term in s.tlog && n.base < m.index <= |s.tlog[m.term]|
    requires m.snapTerm == TermOf(s.tlog[m.term], m.index)
    ensures Keeps(n, m) <==> Shares(s.log[id], s.tlog[m.term], m.index)
  {
    var l, r, k := s.log[id], s.tlog[m.term], m.index;
    if Keeps(n, m) { MatchShares(s, id, n, m.term, k); }
    if Shares(l, r, k) {
      assert l[k - 1] == l[..k][k - 1] == r[..k][k - 1];
      TermAtIs(s, id, n, k);
    }
  }

  lemma InstallKept(g: Ghost, asked: map<ReadKey, nat>, id: NodeId, n: Node, m: Message)
    requires m.SnapshotRequest? && Following(g, asked, id, n, m.term)
    requires n.base < m.index && Shares(g.p.log[id], g.p.tlog[m.term], m.index) && Above(g.p, id, m.term, m.index)
    requires m.snapTerm == TermOf(g.p.tlog[m.term], m.index) && Settled(g.p, m.term, g.p.tlog[m.term], m.index)
    ensures Following(g, asked, id, Install(n, m.index, m.snapTerm, true), m.term) && Synced(g.p, id, m.term)
  {
    var s, t, k := g.p, m.term, m.index;
    var l, n' := s.log[id], Install(n, k, m.snapTerm, true);
    AboveMeans(s, id, t, k);
    LastTermIs(s, id, n);
    SettledVia(s, s, t, s.tlog[t], l, k);
    hide Inv, Settled;
    assert n'.log == l[k..];
    assert l[k - 1] == l[..k][k - 1] == s.tlog[t][..k][k - 1];
    QuietView(g, asked, id, n');
  }

  lemma InstallFresh(g: Ghost, asked: map<ReadKey, nat>, id: NodeId, n: Node, m: Message) returns (g': Ghost)
    requires m.SnapshotRequest? && Following(g, asked, id, n, m.term) && n.base < m.index <= |g.p.tlog[m.term]|
    requires !Shares(g.p.log[id], g.p.tlog[m.term], m.index)
    requires m.snapTerm == TermOf(g.p.tlog[m.term], m.index) && Settled(g.p, m.term, g.p.tlog[m.term], m.index)
    ensures GhostEvolves(g, g', id) && g'.asks == g.asks && g'.p.tlog == g.p.tlog && g'.p.members == g.p.members
    ensures Following(g', asked, id, Install(n, m.index, m.snapTerm, false), m.term) && Synced(g'.p, id, m.term)
    ensures |g'.p.log[id]| == m.index
  {
    var s, t, k := g.p, m.term, m.index;
    var n' := Install(n, k, m.snapTerm, false);
    assert n.commit < k by {
      SettledLeader(s, t, s.log[id], n.commit, t);
      if k <= n.commit { SharesLess(s.log[id], s.tlog[t], k, n.commit); }
    }
    NotSharedBeyond(s.log[id], s.tlog[t], k, k + 1);
    AcceptEvolves(s, id, t, k);
    g' := g.(p := Accept(s, id, t, k));
    SettledVia(s, g'.p, t, s.tlog[t], s.tlog[t][..k], k);
    hide Inv, Frame, Promises, Settled;
    QuietView(g', asked, id, n');
  }

  lemma AckUpToOk(g: Ghost, asked: map<ReadKey, nat>, id: NodeId, n: Node, t: nat, k: nat) returns (g': Ghost)
    requires Following(g, asked, id, n, t) && Synced(g.p, id, t) && k <= LastIndex(n)
    ensures Inv(g'.p) && GhostEvolves(g, g', id) && g'.asks == g.asks && NodeView(g', asked, id, n) && InStepTo(g'.p, id, t, k)
    ensures k <= Acked(g'.p, id, t) && g'.p.tlog == g.p.tlog && g'.p.members == g.p.members && g'.p.log == g.p.log
  {
    var s := g.p;
    LastTermIs(s, id, n);
    assert Shares(s.log[id], s.tlog[t], k);
    AckEvolves(s, id, t, k);
    g' := g.(p := Ack(s, id, t, k));
    hide Inv, Frame, Promises;
    CommitMoved(s, g'.p, id, n, n);
    QuietView(g', asked, id, n);
  }

  lemma SnapReplyOk(g: Ghost, limit: int, id: NodeId, image: Sessions.Machine, to: NodeId, m: Message)
    requires m.SnapshotReply? && id in g.p.members && to in g.p.members && to != id && SnapshotReplyView(g.p, id, m)
    ensures ActionsOk(g, limit, id, image, [Send(to, m)])
  {
    assert ActionOk(g, limit, id, image, Send(to, m));
  }

  lemma TransferFacts(g: Ghost, asked: map<ReadKey, nat>, limit: int, id: NodeId, n: Node, from: NodeId, m: Message, image: Sessions.Machine)
    requires NodeView(g, asked, id, n) && m.SnapshotRequest? && SnapshotRequestView(g, limit, from, id, m, image)
    ensures id in g.p.members && m.term in g.p.tlog && m.term in g.p.ldr && g.p.ldr[m.term] == from
    ensures 0 < m.requestId
  {
  }

  /** Installing brings the Follower in step and lets it acknowledge the Snapshot. */
  lemma InstallOk(g: Ghost, asked: map<ReadKey, nat>, limit: int, id: NodeId, n: Node, from: NodeId, m: Message, image: Sessions.Machine) returns (g': Ghost)
    requires m.SnapshotRequest? && Following(g, asked, id, n, m.term) && SnapshotRequestView(g, limit, from, id, m, image) && n.base < m.index
    ensures var n' := Install(n, m.index, m.snapTerm, Keeps(n, m));
            && GhostEvolves(g, g', id) && g'.asks == g.asks && Following(g', asked, id, n', m.term) && Synced(g'.p, id, m.term)
            && g'.p.members == g.p.members && m.index <= LastIndex(n') && ImageOk(g'.p, limit, id, n', image)
  {
    hide Inv, GhostEvolves, NodeView, SnapshotRequestView, Settled, Above, Install, AsksOk;
    TransferParts(g, asked, limit, id, n, from, m, image);
    KeepsIffShares(g.p, id, n, m);
    g' := g;
    GhostSame(g, id);
    if Keeps(n, m) {
      InstallKept(g, asked, id, n, m);
    } else {
      g' := InstallFresh(g, asked, id, n, m);
    }
    assert Install(n, m.index, m.snapTerm, Keeps(n, m)).base == m.index by { InstallBase(n, m.index, m.snapTerm, Keeps(n, m)); }
    InstalledImage(g, g', asked, limit, id, Install(n, m.index, m.snapTerm, Keeps(n, m)), from, m, image);
  }

  lemma InstallBase(n: Node, index: nat, term: nat, keep: bool)
    ensures Install(n, index, term, keep).base == index
  {
  }

  lemma TransferParts(g: Ghost, asked: map<ReadKey, nat>, limit: int, id: NodeId, n: Node, from: NodeId, m: Message, image: Sessions.Machine)
    requires NodeView(g, asked, id, n) && m.SnapshotRequest? && SnapshotRequestView(g, limit, from, id, m, image)
    ensures LogView(g.p, id, n) && m.term in g.p.tlog && m.index <= |g.p.tlog[m.term]| && m.snapTerm == TermOf(g.p.tlog[m.term], m.index)
    ensures Above(g.p, id, m.term, m.index) && Settled(g.p, m.term, g.p.tlog[m.term], m.index)
  {
  }

  lemma InstalledImage(g: Ghost, g': Ghost, asked: map<ReadKey, nat>, limit: int, id: NodeId, n: Node, from: NodeId, m: Message, image: Sessions.Machine)
    requires m.SnapshotRequest? && SnapshotRequestView(g, limit, from, id, m, image)
    requires NodeView(g', asked, id, n) && Synced(g'.p, id, m.term) && g'.p.tlog == g.p.tlog && n.base == m.index
    ensures ImageOk(g'.p, limit, id, n, image) && m.index <= LastIndex(n)
  {
    LastTermIs(g'.p, id, n);
    assert g'.p.log[id][..m.index] == g.p.tlog[m.term][..m.index];
  }

  /** OnSnapshotRequest once the Leader is recognised. */
  lemma ReceivedOk(g: Ghost, asked: map<ReadKey, nat>, limit: int, id: NodeId, n: Node, from: NodeId, m: Message, st: Staged, image: Sessions.Machine, own: Sessions.Machine) returns (g': Ghost)
    requires m.SnapshotRequest? && Following(g, asked, id, n, m.term) && SnapshotRequestView(g, limit, from, id, m, image)
    requires from in g.p.members && from != id && ImageOk(g.p, limit, id, n, own)
    ensures var installs := st.success && st.done && m.index > n.base;
            var n' := if installs then Install(n, m.index, m.snapTerm, Keeps(n, m)) else n;
            var reply := SnapReply(n', from, m, st.success, st.nextOffset, st.success && st.done);
            && Inv(g'.p) && GhostEvolves(g, g', id) && g'.asks == g.asks && NodeView(g', asked, id, n')
            && ImageOk(g'.p, limit, id, n', if installs then image else own)
            && ActionsOk(g', limit, id, if installs then image else own, [reply])
  {
    hide Inv, GhostEvolves, NodeView, ActionsOk, AsksOk, SnapshotRequestView;
    TransferFacts(g, asked, limit, id, n, from, m, image);
    g' := g;
    GhostSame(g, id);
    var installs := st.success && st.done && m.index > n.base;
    var n' := if installs then Install(n, m.index, m.snapTerm, Keeps(n, m)) else n;
    if installs {
      var g1 := InstallOk(g, asked, limit, id, n, from, m, image);
      g' := AckUpToOk(g1, asked, id, n', m.term, m.index);
      GhostTrans(g, g1, g', id);
    } else if st.success && st.done {
      AlreadyHeld(g, asked, limit, id, n, from, m, image);
      g' := AckUpToOk(g, asked, id, n, m.term, m.index);
    }
    SnapReplyOk(g', limit, id, if installs then image else own, from, SnapReply(n', from, m, st.success, st.nextOffset, st.success && st.done).msg);
  }

  /** A Snapshot at or below the Node's own base is already part of its history. */
  lemma AlreadyHeld(g: Ghost, asked: map<ReadKey, nat>, limit: int, id: NodeId, n: Node, from: NodeId, m: Message, image: Sessions.Machine)
    requires m.SnapshotRequest? && Following(g, asked, id, n, m.term) && SnapshotRequestView(g, limit, from, id, m, image) && m.index <= n.base
    ensures Synced(g.p, id, m.term) && m.index <= LastIndex(n)
  {
    var s, t := g.p, m.term;
    SettledLeader(s, t, s.log[id], n.commit, t);
    SharesLess(s.log[id], s.tlog[t], m.index, n.commit);
    AboveMeans(s, id, t, m.index);
  }

  lemma SnapshotRequestOk(g: Ghost, asked: map<ReadKey, nat>, limit: int, id: NodeId, n: Node, own: Sessions.Machine, from: NodeId, m: Message, st: Staged, image: Sessions.Machine) returns (g': Ghost)
    requires Ready(g, asked, id, n) && AsksOk(g) && ImageOk(g.p, limit, id, n, own)
    requires m.SnapshotRequest? && SnapshotRequestView(g, limit, from, id, m, image) && from in g.p.members && from != id
    ensures var r := OnSnapshotRequest(n, from, m, st);
            var kept := if r.node.base == n.base then own else image;
            Done(g, g', asked, limit, id, kept, r) && ImageOk(g'.p, limit, id, r.node, kept)
  {
    hide Inv, GhostEvolves, NodeView, ActionsOk, AsksOk, SnapshotRequestView, ImageOk, Following;
    TransferFacts(g, asked, limit, id, n, from, m, image);
    if m.term < n.term {
      g' := g;
      GhostSame(g, id);
      SnapReplyOk(g, limit, id, own, from, SnapReply(n, from, m, false, m.offset, false).msg);
    } else {
      var n1 := Recognise(n, m.term, from);
      var g1 := RecogniseOk(g, asked, id, n, m.term, from);
      SnapshotRequestStable(g, g1, id, limit, from, id, m, image);
      RecogniseImage(g.p, g1.p, limit, id, n, from, m.term, own);
      g' := ReceivedOk(g1, asked, limit, id, n1, from, m, st, image, own);
      GhostTrans(g, g1, g', id);
      var kept := if st.success && st.done && m.index > n1.base then image else own;
      var n2 := if st.success && st.done && m.index > n1.base then Install(n1, m.index, m.snapTerm, Keeps(n1, m)) else n1;
      TimerAnd(g', limit, id, kept, m, SnapReply(n2, from, m, st.success, st.nextOffset, st.success && st.done));
    }
  }

  lemma RecogniseImage(s: State, s': State, limit: int, id: NodeId, n: Node, from: NodeId, t: nat, image: Sessions.Machine)
    requires ImageOk(s, limit, id, n, image) && s'.log == s.log
    ensures ImageOk(s', limit, id, Recognise(n, t, from), image) && Recognise(n, t, from).base == n.base
  {
  }

  lemma TimerAnd(g: Ghost, limit: int, id: NodeId, image: Sessions.Machine, m: Message, last: Action)
    requires m.SnapshotRequest? && ActionsOk(g, limit, id, image, [last])
    ensures ActionsOk(g, limit, id, image, [ResetElectionTimer, last])
    ensures ActionsOk(g, limit, id, image, [ResetElectionTimer, RestoreSnapshot(m.index, m.snapTerm), last])
  {
    assert last in [last];
    assert ActionOk(g, limit, id, image, last);
  }

  // --------------------------------------------------------- a Leader's side

  lemma DoneTransfer(g: Ghost, asked: map<ReadKey, nat>, id: NodeId, n: Node, n': Node, from: NodeId, m: Message)
    requires m.SnapshotReply? && NodeView(g, asked, id, n) && n.role == Leader && from in n.peers
    requires SnapshotReplyView(g.p, from, m) && m.term == n.term && m.success && m.done
    requires n' == n.(snapInFlight := n.snapInFlight - {from},
                      matchIndex := n.matchIndex[from := Max(Get(n.matchIndex, from, 0), m.index)],
                      nextIndex := n.nextIndex[from := m.index + 1])
    ensures NodeView(g, asked, id, n')
  {
    assert PeerView(g.p, n, from);
    assert PeerView(g.p, n', from);
    NotedRest(g, asked, id, n, n', from);
  }

  lemma MoreTransfer(g: Ghost, asked: map<ReadKey, nat>, limit: int, id: NodeId, n: Node, image: Sessions.Machine, from: NodeId, m: Message)
    requires m.SnapshotReply? && Ready(g, asked, id, n) && n.role == Leader && from in n.peers && ImageOk(g.p, limit, id, n, image)
    requires SnapshotReplyView(g.p, from, m) && Get(n.snapInFlight, from, 0) == m.requestId
    ensures ActionsOk(g, limit, id, image, [Send(from, SnapshotRequest(n.term, m.requestId, n.base, n.baseTerm, m.nextOffset))])
  {
    assert PeerView(g.p, n, from);
    SnapshotSent(g, asked, limit, id, n, image, from, m.requestId, m.nextOffset);
    OneAction(g, limit, id, image, Send(from, SnapshotRequest(n.term, m.requestId, n.base, n.baseTerm, m.nextOffset)));
  }

  lemma SnapshotReplyOk(g: Ghost, asked: map<ReadKey, nat>, limit: int, id: NodeId, n: Node, image: Sessions.Machine, from: NodeId, m: Message) returns (g': Ghost)
    requires Ready(g, asked, id, n) && ImageOk(g.p, limit, id, n, image)
    requires m.SnapshotReply? && SnapshotReplyView(g.p, from, m) && from in g.p.members && from != id
    ensures Done(g, g', asked, limit, id, image, OnSnapshotReply(n, from, m))
  {
    hide Inv, GhostEvolves, NodeView, ActionsOk, SnapshotReplyView, ImageOk, SendTo, PendingReadFor, SameButRequests;
    g' := g;
    GhostSame(g, id);
    NoActions(g, limit, id, image);
    if m.term > n.term {
      g' := StepDownOk(g, asked, limit, id, n, image, m.term);
    } else if n.role == Leader && m.term == n.term && Get(n.snapInFlight, from, 0) == m.requestId {
      PeerIsListed(g, asked, id, n, from);
      if !m.success {
        FewerTransfers(n, from);
        ClearedView(g, asked, id, n, n.(snapInFlight := n.snapInFlight - {from}));
      } else if !m.done {
        MoreTransfer(g, asked, limit, id, n, image, from, m);
      } else {
        var n1 := n.(snapInFlight := n.snapInFlight - {from},
                     matchIndex := n.matchIndex[from := Max(Get(n.matchIndex, from, 0), m.index)],
                     nextIndex := n.nextIndex[from := m.index + 1]);
        DoneTransfer(g, asked, id, n, n1, from, m);
        CarriedRead(g, asked, id, n1, from);
        ImageSame(g.p, limit, id, n, n1, image);
        SendToOk(g, asked, limit, id, n1, image, from, PendingReadFor(n1, from));
      }
    }
  }

  lemma FewerTransfers(n: Node, from: NodeId)
    ensures SameButRequests(n, n.(snapInFlight := n.snapInFlight - {from}))
  {
  }

  lemma PeerIsListed(g: Ghost, asked: map<ReadKey, nat>, id: NodeId, n: Node, from: NodeId)
    requires NodeView(g, asked, id, n) && from in g.p.members && from != id
    ensures from in n.peers
  {
    assert from in PeerSet(n.peers);
  }

  // -------------------------------------------------------------- compaction

  lemma AboveLater(s: State, f: NodeId, t: nat, m: nat, m': nat)
    requires Above(s, f, t, m) && m <= m'
    ensures Above(s, f, t, m')
  {
    if s.term[f] == t && Shares(s.log[f], s.tlog[t], m') { SharesLess(s.log[f], s.tlog[t], m, m'); }
  }

  lemma CompactedOk(g: Ghost, asked: map<ReadKey, nat>, limit: int, id: NodeId, n: Node, index: nat, term: nat)
    requires Ready(g, asked, id, n) && CanCompact(n, index, term)
    ensures NodeView(g, asked, id, OnCompacted(n, index, term).node)
  {
    var s, n' := g.p, OnCompacted(n, index, term).node;
    TermAtIs(s, id, n, index);
    hide Inv, Settled, IsPeerList;
    if n.role == Leader {
      forall p | p in n'.peers ensures PeerView(s, n', p) {
        assert PeerView(s, n, p);
        AboveLater(s, p, n.term, Max(n.nextIndex[p], n.base), Max(n.nextIndex[p], index));
        if p in n.snapInFlight { AboveLater(s, p, n.term, n.base, index); }
      }
    }
    forall r | r in n'.waiting ensures ReadView(g, asked, id, n', r) { assert ReadView(g, asked, id, n, r); }
  }
}
