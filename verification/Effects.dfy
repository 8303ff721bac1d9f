/** The helpers every handler shares: sending, applying and answering reads. */
module Effects {
  import opened Types
  import opened Messages
  import opened Node
  import opened Cluster
  import opened Protocol
  import opened ProtocolProofs
  import opened Coupling
  import Sessions

  /** The Node's Snapshot image is the state after the entries it compacted. */
  predicate ImageOk(s: State, limit: int, id: NodeId, n: Node, image: Sessions.Machine) {
    && id in s.log && n.base <= |s.log[id]|
    && image == Sessions.Replay(Sessions.Empty(limit), s.log[id][..n.base])
  }

  ghost predicate ActionOk(g: Ghost, limit: int, id: NodeId, image: Sessions.Machine, a: Action) {
    if a.Send? then PacketView(g, limit, Packet(id, a.to, a.msg, image)) else SeenView(g.p, Seen(id, a))
  }

  ghost predicate ActionsOk(g: Ghost, limit: int, id: NodeId, image: Sessions.Machine, actions: seq<Action>) {
    forall a {:trigger ActionOk(g, limit, id, image, a)} :: a in actions ==> ActionOk(g, limit, id, image, a)
  }

  lemma ActionsConcat(g: Ghost, limit: int, id: NodeId, image: Sessions.Machine, a: seq<Action>, b: seq<Action>)
    requires ActionsOk(g, limit, id, image, a) && ActionsOk(g, limit, id, image, b)
    ensures ActionsOk(g, limit, id, image, a + b)
  {
    forall x | x in a + b ensures ActionOk(g, limit, id, image, x) {
      assert x in a || x in b;
    }
  }

  lemma OneAction(g: Ghost, limit: int, id: NodeId, image: Sessions.Machine, a: Action)
    requires ActionOk(g, limit, id, image, a)
    ensures ActionsOk(g, limit, id, image, [a])
  {
  }

  // ------------------------------------------------------------- reading a log

  /** Where the Node still has an entry, it reports the Term of the complete log. */
  lemma TermAtIs(s: State, id: NodeId, n: Node, i: nat)
    requires LogView(s, id, n) && n.base <= i <= LastIndex(n)
    ensures i <= |s.log[id]| == LastIndex(n) && TermAt(n, i) == TermOf(s.log[id], i)
  {
  }

  lemma LastTermIs(s: State, id: NodeId, n: Node)
    requires LogView(s, id, n)
    ensures LastIndex(n) == |s.log[id]| && LastTerm(n) == TermOf(s.log[id], |s.log[id]|)
  {
  }

  lemma SettledLess(s: State, t: nat, log: seq<Entry>, k: nat, j: nat)
    requires Settled(s, t, log, k) && j <= k
    ensures Settled(s, t, log, j)
  {
    if j > 0 {
      var p :| p in s.commits && SettledBy(s, t, log, k, p);
      SharesLess(log, s.tlog[p.term], j, k);
      assert SettledBy(s, t, log, j, p);
    }
  }

  /** A settled prefix is a prefix of what is chosen. */
  lemma SettledChosen(s: State, t: nat, log: seq<Entry>, k: nat)
    requires Inv(s) && Settled(s, t, log, k)
    ensures Shares(log, s.chosen, k)
  {
    if k > 0 {
      var p :| p in s.commits && SettledBy(s, t, log, k, p);
      assert CommitOk(s, p);
      SharesLess(s.tlog[p.term], s.chosen, k, p.index);
    }
  }

  /** A settled prefix is shared with every Leader of the same or a later Term. */
  lemma SettledLeader(s: State, t: nat, log: seq<Entry>, k: nat, later: nat)
    requires Inv(s) && Settled(s, t, log, k) && later in s.tlog && t <= later
    ensures Shares(log, s.tlog[later], k)
  {
    if k > 0 {
      var p :| p in s.commits && SettledBy(s, t, log, k, p);
      LeaderCompleteness(s, p, later);
      SharesLess(s.tlog[later], s.tlog[p.term], k, p.index);
    }
  }

  // ------------------------------------------------------------------ sending

  ghost predicate LeaderReady(g: Ghost, asked: map<ReadKey, nat>, limit: int, id: NodeId, n: Node, image: Sessions.Machine) {
    Inv(g.p) && n.role == Leader && NodeView(g, asked, id, n) && ImageOk(g.p, limit, id, n, image)
  }

  lemma BatchIs(s: State, id: NodeId, n: Node, next: nat)
    requires LogView(s, id, n) && n.base < next <= LastIndex(n) + 1
    ensures var es := EntriesBatch(n, next);
            next - 1 + |es| <= |s.log[id]| && es == s.log[id][next - 1..next - 1 + |es|] && (es == [] ==> next == LastIndex(n) + 1)
  {
    var es := EntriesBatch(n, next);
    var full := s.log[id];
    if next <= LastIndex(n) {
      var rest := n.log[next - n.base - 1..];
      assert rest == full[next - 1..];
      assert es == rest[..|es|] == full[next - 1..next - 1 + |es|];
    }
  }

  lemma AppendSent(g: Ghost, asked: map<ReadKey, nat>, limit: int, id: NodeId, n: Node, image: Sessions.Machine, peer: NodeId, next: nat, requestId: nat, readId: nat)
    requires LeaderReady(g, asked, limit, id, n, image) && peer in n.peers
    requires n.base < next <= LastIndex(n) + 1 && Above(g.p, peer, n.term, next)
    requires readId != 0 ==> ReadKey(id, n.term, readId) in g.asks
    ensures PacketView(g, limit, Packet(id, peer, AppendRequest(n.term, requestId, next - 1, TermAt(n, next - 1), EntriesBatch(n, next), n.commit, readId), image))
  {
    var s := g.p;
    PeerMember(s, id, n, peer);
    BatchIs(s, id, n, next);
    TermAtIs(s, id, n, next - 1);
    assert LeaderLogOk(s, n.term);
  }

  lemma PeerMember(s: State, id: NodeId, n: Node, peer: NodeId)
    requires LogView(s, id, n) && peer in n.peers
    ensures peer in s.members && peer != id
  {
    assert peer in PeerSet(n.peers);
  }

  lemma SnapshotSent(g: Ghost, asked: map<ReadKey, nat>, limit: int, id: NodeId, n: Node, image: Sessions.Machine, peer: NodeId, requestId: nat, offset: nat)
    requires LeaderReady(g, asked, limit, id, n, image) && peer in n.peers
    requires 0 < requestId && Above(g.p, peer, n.term, n.base)
    ensures PacketView(g, limit, Packet(id, peer, SnapshotRequest(n.term, requestId, n.base, n.baseTerm, offset), image))
  {
    PeerMember(g.p, id, n, peer);
    SettledLess(g.p, n.term, g.p.log[id], n.commit, n.base);
  }

  /** A Leader may always start at the end of its own log. */
  lemma AboveEnd(s: State, id: NodeId, n: Node, peer: NodeId)
    requires Inv(s) && LogView(s, id, n) && n.role == Leader && LeaderView(s, id, n) && peer in n.peers
    ensures Above(s, peer, n.term, LastIndex(n) + 1)
  {
    assert PeerView(s, n, peer);
    assert LeaderLogOk(s, n.term);
  }

  /** The Node differs only in its outstanding requests. */
  predicate SameButRequests(n: Node, n': Node) {
    n' == n.(nextRequest := n'.nextRequest, inFlight := n'.inFlight, snapInFlight := n'.snapInFlight)
  }

  /** What SendTo does when it sends at all. */
  lemma SendToCases(n: Node, peer: NodeId, readId: nat)
    requires peer in n.nextIndex && 0 < n.nextIndex[peer]
    ensures var r := SendTo(n, peer, readId);
            var next := Min(n.nextIndex[peer], LastIndex(n) + 1);
            && SameButRequests(n, r.node) && r.node.snapInFlight.Keys <= n.snapInFlight.Keys + {peer}
            && (|| r == Effect(n, [])
                || (next <= n.base
                    && r.actions == [Send(peer, SnapshotRequest(n.term, n.nextRequest + 1, n.base, n.baseTerm, 0))])
                || (n.base < next && r.node.snapInFlight == n.snapInFlight
                    && r.actions == [Send(peer, AppendRequest(n.term, n.nextRequest + 1, next - 1, TermAt(n, next - 1), EntriesBatch(n, next), n.commit, readId))]))
  {
  }

  lemma SendToOk(g: Ghost, asked: map<ReadKey, nat>, limit: int, id: NodeId, n: Node, image: Sessions.Machine, peer: NodeId, readId: nat)
    requires LeaderReady(g, asked, limit, id, n, image) && peer in n.peers
    requires readId != 0 ==> ReadKey(id, n.term, readId) in g.asks
    ensures var r := SendTo(n, peer, readId);
            SameButRequests(n, r.node) && LeaderReady(g, asked, limit, id, r.node, image) && ActionsOk(g, limit, id, image, r.actions)
  {
    hide Inv, NodeView, PacketView, ImageOk, SendTo, ActionsOk, Above, EntriesBatch, TermAt, SameButRequests;
    var r := SendTo(n, peer, readId);
    PeerAbove(g, asked, id, n, peer);
    SendToCases(n, peer, readId);
    var next := Min(n.nextIndex[peer], LastIndex(n) + 1);
    NoActions(g, limit, id, image);
    if r != Effect(n, []) {
      if next <= n.base {
        SnapshotSent(g, asked, limit, id, n, image, peer, n.nextRequest + 1, 0);
      } else {
        AppendSent(g, asked, limit, id, n, image, peer, next, n.nextRequest + 1, readId);
      }
      OneAction(g, limit, id, image, r.actions[0]);
      RequestsKept(g, asked, id, n, r.node, peer);
      ImageSame(g.p, limit, id, n, r.node, image);
    }
  }

  lemma NoActions(g: Ghost, limit: int, id: NodeId, image: Sessions.Machine)
    ensures ActionsOk(g, limit, id, image, [])
  {
  }

  lemma ImageSame(s: State, limit: int, id: NodeId, n: Node, n': Node, image: Sessions.Machine)
    requires ImageOk(s, limit, id, n, image) && (n'.base == n.base || SameButRequests(n, n'))
    ensures ImageOk(s, limit, id, n', image) && n'.base == n.base && (SameButRequests(n, n') ==> n'.role == n.role)
  {
  }

  lemma PeerAbove(g: Ghost, asked: map<ReadKey, nat>, id: NodeId, n: Node, peer: NodeId)
    requires Inv(g.p) && NodeView(g, asked, id, n) && n.role == Leader && peer in n.peers
    ensures peer in n.nextIndex && 0 < n.nextIndex[peer]
    ensures var next := Min(n.nextIndex[peer], LastIndex(n) + 1);
            && (next <= n.base ==> Above(g.p, peer, n.term, n.base))
            && (n.base < next ==> Above(g.p, peer, n.term, next))
    ensures peer in n.snapInFlight ==> Above(g.p, peer, n.term, n.base)
  {
    assert PeerView(g.p, n, peer);
    AboveEnd(g.p, id, n, peer);
  }

  /** New requests change nothing a Leader's picture depends on. */
  lemma RequestsKept(g: Ghost, asked: map<ReadKey, nat>, id: NodeId, n: Node, n': Node, peer: NodeId)
    requires NodeView(g, asked, id, n) && SameButRequests(n, n') && n.role == Leader
    requires n'.snapInFlight.Keys <= n.snapInFlight.Keys + {peer}
    requires peer in n'.snapInFlight ==> Above(g.p, peer, n.term, n.base)
    ensures NodeView(g, asked, id, n')
  {
    forall p | p in n'.peers ensures PeerView(g.p, n', p) { assert PeerView(g.p, n, p); }
    forall r | r in n'.waiting ensures ReadView(g, asked, id, n', r) { assert ReadView(g, asked, id, n, r); }
  }

  lemma SendAllOk(g: Ghost, asked: map<ReadKey, nat>, limit: int, id: NodeId, n: Node, image: Sessions.Machine, peers: seq<NodeId>, readId: nat)
    requires LeaderReady(g, asked, limit, id, n, image)
    requires forall p :: p in peers ==> p in n.peers
    requires readId != 0 ==> ReadKey(id, n.term, readId) in g.asks
    ensures var r := SendAll(n, peers, readId);
            SameButRequests(n, r.node) && LeaderReady(g, asked, limit, id, r.node, image) && ActionsOk(g, limit, id, image, r.actions)
    decreases |peers|
  {
    if peers != [] {
      var carried := if readId == 0 then PendingReadFor(n, peers[0]) else readId;
      assert carried != 0 ==> ReadKey(id, n.term, carried) in g.asks by { CarriedRead(g, asked, id, n, peers[0]); }
      SendToOk(g, asked, limit, id, n, image, peers[0], carried);
      SendRest(g, asked, limit, id, n, image, peers, readId, SendTo(n, peers[0], carried));
    }
  }

  lemma SendRest(g: Ghost, asked: map<ReadKey, nat>, limit: int, id: NodeId, n: Node, image: Sessions.Machine, peers: seq<NodeId>, readId: nat, one: Effect)
    requires peers != [] && one == SendTo(n, peers[0], if readId == 0 then PendingReadFor(n, peers[0]) else readId)
    requires SameButRequests(n, one.node) && LeaderReady(g, asked, limit, id, one.node, image) && ActionsOk(g, limit, id, image, one.actions)
    requires forall p :: p in peers ==> p in n.peers
    requires readId != 0 ==> ReadKey(id, n.term, readId) in g.asks
    ensures var r := SendAll(n, peers, readId);
            SameButRequests(n, r.node) && LeaderReady(g, asked, limit, id, r.node, image) && ActionsOk(g, limit, id, image, r.actions)
    decreases |peers|, 0
  {
    SendAllOk(g, asked, limit, id, one.node, image, peers[1..], readId);
    ActionsConcat(g, limit, id, image, one.actions, SendAll(one.node, peers[1..], readId).actions);
  }

  lemma CarriedRead(g: Ghost, asked: map<ReadKey, nat>, id: NodeId, n: Node, peer: NodeId)
    requires NodeView(g, asked, id, n)
    ensures PendingReadFor(n, peer) != 0 ==> ReadKey(id, n.term, PendingReadFor(n, peer)) in g.asks
  {
    var ids := set r | r in n.waiting && peer !in n.waiting[r].acks;
    if ids != {} {
      assert ReadView(g, asked, id, n, Least(ids));
    }
  }

  // ------------------------------------------------------ applying and reading

  lemma CompleteReadsOk(g: Ghost, asked: map<ReadKey, nat>, limit: int, id: NodeId, n: Node, image: Sessions.Machine)
    requires NodeView(g, asked, id, n)
    ensures var r := CompleteReads(n);
            && r.node == n.(waiting := r.node.waiting)
            && NodeView(g, asked, id, r.node) && ActionsOk(g, limit, id, image, r.actions)
    decreases |ReadyReads(n)|
  {
    var ready := ReadyReads(n);
    if ready != {} {
      var r := Least(ready);
      var n' := n.(waiting := n.waiting - {r});
      assert ReadyReads(n') == ready - {r};
      FewerReads(g, asked, id, n, n');
      CompleteReadsOk(g, asked, limit, id, n', image);
      var a := ReadConfirmed(r, n.waiting[r].commitIndex);
      assert ActionOk(g, limit, id, image, a);
      ActionsConcat(g, limit, id, image, [a], CompleteReads(n').actions);
    }
  }

  lemma FewerReads(g: Ghost, asked: map<ReadKey, nat>, id: NodeId, n: Node, n': Node)
    requires NodeView(g, asked, id, n) && n' == n.(waiting := n'.waiting)
    requires forall r :: r in n'.waiting ==> r in n.waiting && n'.waiting[r] == n.waiting[r]
    ensures NodeView(g, asked, id, n')
  {
    if n.role != Leader { assert n'.waiting == map[]; }
    forall p | p in n'.peers && n.role == Leader ensures PeerView(g.p, n', p) { assert PeerView(g.p, n, p); }
    forall r | r in n'.waiting ensures ReadView(g, asked, id, n', r) { assert ReadView(g, asked, id, n, r); }
  }

  lemma ApplyOneOk(g: Ghost, asked: map<ReadKey, nat>, limit: int, id: NodeId, n: Node, image: Sessions.Machine)
    requires Inv(g.p) && NodeView(g, asked, id, n) && n.lastApplied < n.commit
    ensures n.lastApplied < LastIndex(n)
    ensures var r := ApplyOne(n);
            NodeView(g, asked, id, r.node) && ActionsOk(g, limit, id, image, r.actions)
  {
    hide Inv, NodeView, ActionsOk;
    ApplyOneActions(g, asked, limit, id, n, image);
    ApplyOneView(g, asked, id, n);
  }

  lemma ApplyOneActions(g: Ghost, asked: map<ReadKey, nat>, limit: int, id: NodeId, n: Node, image: Sessions.Machine)
    requires Inv(g.p) && NodeView(g, asked, id, n) && n.lastApplied < n.commit
    ensures n.base <= n.lastApplied < LastIndex(n) && ActionsOk(g, limit, id, image, ApplyOne(n).actions)
  {
    hide LeaderView, CandidateView, ReadsView, IsPeerList;
    var s, i := g.p, n.lastApplied;
    var e := n.log[i - n.base];
    assert e == s.log[id][i];
    SettledChosen(s, n.term, s.log[id], n.commit);
    assert s.log[id][i] == s.log[id][..n.commit][i] == s.chosen[..n.commit][i];
    assert NodeLogOk(s, id);
    assert ActionOk(g, limit, id, image, ApplyEntry(e));
    assert ActionOk(g, limit, id, image, BecameReadReady(n.term));
  }

  lemma ApplyOneView(g: Ghost, asked: map<ReadKey, nat>, id: NodeId, n: Node)
    requires Inv(g.p) && NodeView(g, asked, id, n) && n.lastApplied < n.commit && n.base <= n.lastApplied < LastIndex(n)
    ensures NodeView(g, asked, id, ApplyOne(n).node)
  {
    var s, n' := g.p, ApplyOne(n).node;
    assert NodeLogOk(s, id);
    if n.role == Leader && n.log[n.lastApplied - n.base].term == n.term { assert LeaderLogOk(s, n.term); }
    hide Inv, PeerView, ReadView, Settled, IsPeerList;
    forall p | p in n.peers && n.role == Leader ensures PeerView(s, n', p) {
      assert PeerView(s, n, p);
      PeerAfterApply(s, n, p);
    }
    forall q | q in n'.waiting ensures ReadView(g, asked, id, n', q) {
      assert ReadView(g, asked, id, n, q);
      ReadAfterApply(g, asked, id, n, q);
    }
  }

  lemma PeerAfterApply(s: State, n: Node, p: NodeId)
    requires n.base <= n.lastApplied < LastIndex(n) && PeerView(s, n, p)
    ensures PeerView(s, ApplyOne(n).node, p)
  {
  }

  lemma ReadAfterApply(g: Ghost, asked: map<ReadKey, nat>, id: NodeId, n: Node, q: nat)
    requires n.base <= n.lastApplied < LastIndex(n) && q in n.waiting && ReadView(g, asked, id, n, q)
    ensures q in ApplyOne(n).node.waiting && ReadView(g, asked, id, ApplyOne(n).node, q)
  {
  }

  lemma ApplyThroughOk(g: Ghost, asked: map<ReadKey, nat>, limit: int, id: NodeId, n: Node, image: Sessions.Machine, index: nat)
    requires Inv(g.p) && NodeView(g, asked, id, n) && index <= n.commit
    ensures var r := ApplyThrough(n, index);
            && r.node == n.(lastApplied := Max(n.lastApplied, index), readReady := r.node.readReady, waiting := r.node.waiting)
            && NodeView(g, asked, id, r.node) && ActionsOk(g, limit, id, image, r.actions)
    decreases index - n.lastApplied
  {
    if index <= n.lastApplied {
      CompleteReadsOk(g, asked, limit, id, n, image);
    } else {
      ApplyOneOk(g, asked, limit, id, n, image);
      var one := ApplyOne(n);
      ApplyThroughOk(g, asked, limit, id, one.node, image, index);
      ActionsConcat(g, limit, id, image, one.actions, ApplyThrough(one.node, index).actions);
    }
  }
}
