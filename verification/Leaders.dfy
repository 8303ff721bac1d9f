/** A Leader's handlers keep the coupling: proposals, heartbeats, replies and reads. */
module Leaders {
  import opened Types
  import opened Messages
  import opened Quorums
  import opened Node
  import opened Cluster
  import opened Protocol
  import opened ProtocolProofs
  import opened Coupling
  import opened Stability
  import opened Framing
  import opened Effects
  import opened Elections
  import opened FollowerLog
  import opened Followers
  import Sessions

  ghost predicate AskedOk(g: Ghost, asked: map<ReadKey, nat>) {
    forall k {:trigger AskView(g, asked, k)} :: k in asked ==> AskView(g, asked, k)
  }

  // ------------------------------------------------- heartbeats and proposals

  lemma ClearedView(g: Ghost, asked: map<ReadKey, nat>, id: NodeId, n: Node, n': Node)
    requires NodeView(g, asked, id, n) && SameButRequests(n, n') && n'.snapInFlight.Keys <= n.snapInFlight.Keys
    ensures NodeView(g, asked, id, n')
  {
    if n.role == Leader {
      forall p | p in n'.peers ensures PeerView(g.p, n', p) { assert PeerView(g.p, n, p); }
    }
    forall r | r in n'.waiting ensures ReadView(g, asked, id, n', r) { assert ReadView(g, asked, id, n, r); }
  }

  lemma HeartbeatOk(g: Ghost, asked: map<ReadKey, nat>, limit: int, id: NodeId, n: Node, image: Sessions.Machine)
    requires Ready(g, asked, id, n) && ImageOk(g.p, limit, id, n, image)
    ensures Done(g, g, asked, limit, id, image, OnHeartbeat(n))
  {
    hide Inv, GhostEvolves, NodeView, ActionsOk;
    GhostSame(g, id);
    NoActions(g, limit, id, image);
    if n.role == Leader {
      var n1 := n.(inFlight := map[]);
      ClearedView(g, asked, id, n, n1);
      SendAllOk(g, asked, limit, id, n1, image, n.peers, 0);
      ShowOk(g, limit, id, image, ResetHeartbeatTimer);
      ActionsConcat(g, limit, id, image, [ResetHeartbeatTimer], SendAll(n1, n.peers, 0).actions);
    }
  }

  lemma AppendFailedOk(g: Ghost, asked: map<ReadKey, nat>, limit: int, id: NodeId, n: Node, image: Sessions.Machine, to: NodeId, requestId: nat)
    requires Ready(g, asked, id, n)
    ensures Done(g, g, asked, limit, id, image, OnAppendFailed(n, to, requestId))
  {
    hide Inv, GhostEvolves, NodeView, ActionsOk, SameButRequests;
    GhostSame(g, id);
    NoActions(g, limit, id, image);
    FailedShape(n, to, requestId);
    ClearedView(g, asked, id, n, OnAppendFailed(n, to, requestId).node);
  }

  lemma FailedShape(n: Node, to: NodeId, requestId: nat)
    ensures var r := OnAppendFailed(n, to, requestId);
            SameButRequests(n, r.node) && r.node.snapInFlight.Keys <= n.snapInFlight.Keys && r.actions == []
  {
  }

  /** The history once a Leader has appended an entry and counted itself. */
  function Proposed(s: State, id: NodeId, t: nat, e: Entry): State
    requires id in s.log && t in s.tlog
  {
    Ack(Extend(s, id, t, e), id, t, |s.log[id]| + 1)
  }

  lemma ProposedEvolves(s: State, id: NodeId, t: nat, e: Entry)
    requires Inv(s) && id in s.log && t in s.tlog && CanExtend(s, id, t, e)
    ensures Inv(Proposed(s, id, t, e)) && Evolves(s, Proposed(s, id, t, e), id)
  {
    hide Inv, Evolves;
    ExtendEvolves(s, id, t, e);
    AckEvolves(Extend(s, id, t, e), id, t, |s.log[id]| + 1);
    EvolvesTrans(s, Extend(s, id, t, e), Proposed(s, id, t, e), id);
  }

  /** A Leader's picture of its peers survives its own progress. */
  lemma PeersMoved(s: State, s': State, id: NodeId, n: Node, n': Node)
    requires Evolves(s, s', id) && n.role == Leader && LeaderView(s, id, n)
    requires n'.peers == n.peers && n'.term == n.term && n'.base == n.base
    requires n'.matchIndex == n.matchIndex && n'.nextIndex == n.nextIndex && n'.snapInFlight == n.snapInFlight
    ensures forall p {:trigger PeerView(s', n', p)} :: p in n'.peers ==> PeerView(s', n', p)
  {
    forall p | p in n'.peers ensures PeerView(s', n', p) {
      assert PeerView(s, n, p);
      assert Above(s', p, n.term, Max(n.nextIndex[p], n.base));
      assert p in n.snapInFlight ==> Above(s', p, n.term, n.base);
      assert Acked(s, p, n.term) <= Acked(s', p, n.term);
    }
  }

  lemma ReadsMoved(g: Ghost, g': Ghost, asked: map<ReadKey, nat>, id: NodeId, n: Node, n': Node)
    requires Grows(g.p, g'.p) && g'.asks == g.asks && n.role == n'.role == Leader && ReadsView(g, asked, id, n)
    requires n'.term == n.term && n'.waiting == n.waiting && n.commit <= n'.commit
    requires Leads(g.p, id, n) && Leads(g'.p, id, n')
    ensures ReadsView(g', asked, id, n')
  {
    forall r | r in n'.waiting ensures ReadView(g', asked, id, n', r) {
      assert ReadView(g, asked, id, n, r);
      AllHereStable(g.p, g'.p, n.waiting[r].acks, n.term, g.asks[ReadKey(id, n.term, r)]);
    }
  }

  lemma ProposedView(g: Ghost, g': Ghost, asked: map<ReadKey, nat>, id: NodeId, n: Node, e: Entry)
    requires Ready(g, asked, id, n) && n.role == Leader && e.term == n.term && e.index == LastIndex(n) + 1
    requires g' == g.(p := Proposed(g.p, id, n.term, e)) && Evolves(g.p, g'.p, id)
    ensures NodeView(g', asked, id, n.(log := n.log + [e]))
  {
    var s, s', n' := g.p, g'.p, n.(log := n.log + [e]);
    hide Inv, Frame, Promises, PeerView, ReadView, Settled, IsPeerList;
    LastTermIs(s, id, n);
    CommitMoved(s, s', id, n, n');
    PeersMoved(s, s', id, n, n');
    ReadsMoved(g, g', asked, id, n, n');
  }

  lemma ProposeOk(g: Ghost, asked: map<ReadKey, nat>, limit: int, id: NodeId, n: Node, image: Sessions.Machine, proposalId: nat, e: Entry) returns (g': Ghost)
    requires Ready(g, asked, id, n) && ImageOk(g.p, limit, id, n, image) && n.role == Leader && e.term == n.term && e.index == LastIndex(n) + 1
    ensures Done(g, g', asked, limit, id, image, Propose(n, proposalId, e))
  {
    LastTermIs(g.p, id, n);
    ProposedEvolves(g.p, id, n.term, e);
    g' := g.(p := Proposed(g.p, id, n.term, e));
    ProposedView(g, g', asked, id, n, e);
    var n1 := n.(log := n.log + [e]);
    OfficeImage(g.p, g'.p, limit, id, n, n1, image);
    hide Inv, Evolves, NodeView, ActionsOk, ImageOk;
    SendAllOk(g', asked, limit, id, n1, image, n.peers, 0);
    ShowOk(g', limit, id, image, ProposalAccepted(proposalId, e.index));
    ActionsConcat(g', limit, id, image, [ProposalAccepted(proposalId, e.index)], SendAll(n1, n.peers, 0).actions);
  }

  lemma OnProposeOk(g: Ghost, asked: map<ReadKey, nat>, limit: int, id: NodeId, n: Node, image: Sessions.Machine, ev: Event) returns (g': Ghost)
    requires Ready(g, asked, id, n) && ImageOk(g.p, limit, id, n, image)
    requires ev.ProposeSession? || ev.ProposeSet? || ev.ProposeDelete?
    ensures Done(g, g', asked, limit, id, image, OnPropose(n, ev))
  {
    hide Inv, GhostEvolves, NodeView, ActionsOk;
    g' := g;
    GhostSame(g, id);
    NoActions(g, limit, id, image);
    if n.role != Leader {
      ShowOk(g, limit, id, image, ProposalRejected(ev.proposalId, n.leaderId));
    } else {
      var index := LastIndex(n) + 1;
      match ev
      case ProposeSession(pid, kind, session) =>
        if kind == OpenSession || kind == CloseSession {
          g' := ProposeOk(g, asked, limit, id, n, image, pid, Entry(index, n.term, kind, session, 0, [], []));
        }
      case ProposeSet(pid, session, sequence, key, value) =>
        g' := ProposeOk(g, asked, limit, id, n, image, pid, Entry(index, n.term, SetKey, session, sequence, key, value));
      case ProposeDelete(pid, session, sequence, key) =>
        g' := ProposeOk(g, asked, limit, id, n, image, pid, Entry(index, n.term, DeleteKey, session, sequence, key, []));
    }
  }

  // -------------------------------------------------------------------- reads

  /** A majority that answered after the read began proves that nothing newer
      was committed before it began than the Leader knows now. */
  lemma ReadCovers(g: Ghost, asked: map<ReadKey, nat>, id: NodeId, n: Node, r: nat, acks: set<NodeId>)
    requires Ready(g, asked, id, n) && AskedOk(g, asked) && r in n.waiting && acks <= g.p.members && |acks| >= Quorum(n)
    requires ReadKey(id, n.term, r) in g.asks && AllHere(g.p, acks, n.term, g.asks[ReadKey(id, n.term, r)])
    ensures ReadKey(id, n.term, r) in asked && asked[ReadKey(id, n.term, r)] <= n.commit
  {
    var s, key := g.p, ReadKey(id, n.term, r);
    assert ReadView(g, asked, id, n, r) && AskView(g, asked, key);
    if asked[key] > 0 {
      var p :| p in s.commits && p.term in g.asks[key] && asked[key] <= p.index;
      assert CommitOk(s, p);
      if p.term < n.term {
        LeaderCompleteness(s, p, n.term);
        EarlierBelow(s, id, n, p);
      } else if p.term > n.term {
        assert LeaderLogOk(s, p.term);
        VotesAreQuorum(s, id, n, acks);
        var v := QuorumsIntersect(s.members, acks, s.electors[p.term]);
        AckerElsewhere(s, acks, n.term, g.asks[key], v, p.term);
      }
    }
  }

  lemma AckerElsewhere(s: State, acks: set<NodeId>, t: nat, terms: set<nat>, v: NodeId, u: nat)
    requires AllHere(s, acks, t, terms) && v in acks && u in terms && t < u
    ensures u in s.electors && v !in s.electors[u]
  {
    assert StillHere(s, v, t, terms);
  }

  lemma EarlierBelow(s: State, id: NodeId, n: Node, p: Point)
    requires Inv(s) && Leads(s, id, n) && p.term < n.term && IsPoint(s, p.term, p.index) && Shares(s.tlog[n.term], s.tlog[p.term], p.index)
    ensures p.index <= CandLen(s, n.term)
  {
    assert LeaderLogOk(s, n.term);
    var k := p.index;
    assert s.tlog[n.term][k - 1] == s.tlog[n.term][..k][k - 1] == s.tlog[p.term][..k][k - 1];
  }

  ghost predicate ReplyReads(g: Ghost, id: NodeId, n: Node, from: NodeId, readId: nat) {
    readId != 0 ==>
      && ReadKey(id, n.term, readId) in g.asks
      && StillHere(g.p, from, n.term, g.asks[ReadKey(id, n.term, readId)])
  }

  lemma CountAck(g: Ghost, asked: map<ReadKey, nat>, id: NodeId, n: Node, r: nat, w: PendingRead)
    requires NodeView(g, asked, id, n) && n.role == Leader && r in n.waiting
    requires ReadKey(id, n.term, r) in g.asks && ReadKey(id, n.term, r) in asked
    requires w.acks <= g.p.members && AllHere(g.p, w.acks, n.term, g.asks[ReadKey(id, n.term, r)])
    requires w.confirmed ==> asked[ReadKey(id, n.term, r)] <= w.commitIndex <= n.commit
    ensures NodeView(g, asked, id, n.(waiting := n.waiting[r := w]))
  {
    var n' := n.(waiting := n.waiting[r := w]);
    forall p | p in n'.peers ensures PeerView(g.p, n', p) { assert PeerView(g.p, n, p); }
    assert ReadView(g, asked, id, n, r);
    forall q | q in n'.waiting ensures ReadView(g, asked, id, n', q) {
      if q != r { assert ReadView(g, asked, id, n, q); }
    }
  }

  lemma AckReadOk(g: Ghost, asked: map<ReadKey, nat>, limit: int, id: NodeId, n: Node, image: Sessions.Machine, from: NodeId, readId: nat)
    requires Ready(g, asked, id, n) && AskedOk(g, asked) && n.role == Leader && from in g.p.members && ReplyReads(g, id, n, from, readId)
    ensures var r := AckRead(n, from, readId);
            && r.node == n.(waiting := r.node.waiting)
            && NodeView(g, asked, id, r.node) && ActionsOk(g, limit, id, image, r.actions)
  {
    NoActions(g, limit, id, image);
    if readId != 0 && readId in n.waiting && !n.waiting[readId].confirmed {
      var key := ReadKey(id, n.term, readId);
      assert ReadView(g, asked, id, n, readId);
      var acks := n.waiting[readId].acks + {from};
      assert AllHere(g.p, acks, n.term, g.asks[key]);
      if |acks| < Quorum(n) {
        hide Inv, ActionsOk;
        CountAck(g, asked, id, n, readId, n.waiting[readId].(acks := acks));
      } else {
        ReadCovers(g, asked, id, n, readId, acks);
        hide Inv, ActionsOk, NodeView;
        CountAck(g, asked, id, n, readId, PendingRead(acks, n.commit, true));
        CompleteReadsOk(g, asked, limit, id, n.(waiting := n.waiting[readId := PendingRead(acks, n.commit, true)]), image);
      }
    }
  }

  // ------------------------------------------------------------------ replies

  lemma NotedPeer(g: Ghost, asked: map<ReadKey, nat>, id: NodeId, n: Node, from: NodeId, m: Message)
    requires Ready(g, asked, id, n) && n.role == Leader && m.AppendReply? && m.term == n.term && !StaleRejection(m)
    requires AppendReplyView(g, from, id, m) && from in g.p.members && from != id
    ensures PeerView(g.p, NoteReply(n, from, m), from)
  {
    hide NoteReply, NextIndexFromConflict, Inv, Promises, Above;
    var s := g.p;
    assert PeerView(s, n, from) by { assert from in PeerSet(n.peers); }
    NotedFields(n, from, m);
    if m.success {
      InStepAbove(s, from, n.term, n.nextIndex[from], n.base, Max(Get(n.matchIndex, from, 0), m.matchIndex) + 1);
    } else {
      HintKeepsAbove(s, id, n, from, Hint(m.conflictTerm, m.conflictIndex));
    }
  }

  lemma NotedFields(n: Node, from: NodeId, m: Message)
    requires m.AppendReply?
    ensures var n', known := NoteReply(n, from, m), Get(n.matchIndex, from, 0);
            && n'.term == n.term && n'.base == n.base && n'.snapInFlight == n.snapInFlight && from in n'.nextIndex
            && Get(n'.matchIndex, from, 0) == (if m.success then Max(known, m.matchIndex) else known)
            && n'.nextIndex[from] == if m.success then Max(known, m.matchIndex) + 1
                                     else NextIndexFromConflict(n, Hint(m.conflictTerm, m.conflictIndex))
  {
    hide NextIndexFromConflict;
    if m.success {
      if m.matchIndex > Get(n.matchIndex, from, 0) {
      } else {
      }
    } else {
    }
  }

  /** A Follower in step stays so whatever the next index. */
  lemma InStepAbove(s: State, f: NodeId, t: nat, next: nat, base: nat, next': nat)
    requires Above(s, f, t, Max(next, base)) && InStep(s, f, t)
    ensures Above(s, f, t, Max(next', base))
  {
  }

  lemma NoteReplyOk(g: Ghost, asked: map<ReadKey, nat>, id: NodeId, n: Node, from: NodeId, m: Message)
    requires Ready(g, asked, id, n) && n.role == Leader && m.AppendReply? && m.term == n.term && !StaleRejection(m)
    requires AppendReplyView(g, from, id, m) && from in g.p.members && from != id
    ensures NodeView(g, asked, id, NoteReply(n, from, m))
  {
    hide Inv, AppendReplyView, NodeView, PeerView, SameButPeer, NoteReply;
    NotedPeer(g, asked, id, n, from, m);
    NotedShape(n, from, m);
    NotedRest(g, asked, id, n, NoteReply(n, from, m), from);
  }

  /** Only one peer's bookkeeping changed. */
  ghost predicate SameButPeer(n: Node, n': Node, from: NodeId) {
    && n' == n.(inFlight := n'.inFlight, activePeers := n'.activePeers, matchIndex := n'.matchIndex, nextIndex := n'.nextIndex, snapInFlight := n'.snapInFlight)
    && forall p :: p != from ==>
         && Get(n'.matchIndex, p, 0) == Get(n.matchIndex, p, 0)
         && Get(n'.nextIndex, p, 0) == Get(n.nextIndex, p, 0) && (p in n'.nextIndex <==> p in n.nextIndex)
         && (p in n'.snapInFlight ==> p in n.snapInFlight)
  }

  lemma NotedShape(n: Node, from: NodeId, m: Message)
    requires m.AppendReply?
    ensures SameButPeer(n, NoteReply(n, from, m), from)
  {
  }

  lemma NotedRest(g: Ghost, asked: map<ReadKey, nat>, id: NodeId, n: Node, n': Node, from: NodeId)
    requires NodeView(g, asked, id, n) && n.role == Leader && SameButPeer(n, n', from) && PeerView(g.p, n', from)
    ensures NodeView(g, asked, id, n')
  {
    forall p | p in n'.peers ensures PeerView(g.p, n', p) {
      assert PeerView(g.p, n, p);
      assert p != from ==> Get(n'.matchIndex, p, 0) == Get(n.matchIndex, p, 0);
    }
    forall r | r in n'.waiting ensures ReadView(g, asked, id, n', r) { assert ReadView(g, asked, id, n, r); }
  }

  /** A committable index really is stored by a majority. */
  lemma CanAdvance(s: State, id: NodeId, n: Node, index: nat)
    requires Inv(s) && LogView(s, id, n) && LeaderView(s, id, n) && n.role == Leader
    requires n.base < index <= LastIndex(n) && Committable(n, index)
    ensures CanCommit(s, n.term, index, Replicas(n, index) + {id})
  {
    var q := Replicas(n, index) + {id};
    TermAtIs(s, id, n, index);
    MembersCount(s.members, id, n.peers);
    assert forall p :: p in Replicas(n, index) ==> p in PeerSet(n.peers);
    assert |q| == |Replicas(n, index)| + 1;
    assert AckedBy(s, q, n.term, index) by {
      forall v | v in q ensures index <= Acked(s, v, n.term) {
        if v != id { assert PeerView(s, n, v); }
      }
    }
  }

  lemma AdvancedView(g: Ghost, g': Ghost, asked: map<ReadKey, nat>, id: NodeId, n: Node, index: nat)
    requires Ready(g, asked, id, n) && n.role == Leader && n.commit < index <= LastIndex(n) && n.term in g.p.tlog && index <= |g.p.tlog[n.term]|
    requires g' == g.(p := Commit(g.p, n.term, index)) && Evolves(g.p, g'.p, id)
    ensures NodeView(g', asked, id, n.(commit := index))
  {
    hide Inv, Frame, Promises, PeerView, ReadView, IsPeerList, Settled;
    var s, s', n' := g.p, g'.p, n.(commit := index);
    LastTermIs(s, id, n);
    AdvancedSettled(g, g', asked, id, n, index);
    PeersMoved(s, s', id, n, n');
    ReadsMoved(g, g', asked, id, n, n');
  }

  lemma AdvancedSettled(g: Ghost, g': Ghost, asked: map<ReadKey, nat>, id: NodeId, n: Node, index: nat)
    requires Ready(g, asked, id, n) && n.role == Leader && n.commit < index <= LastIndex(n) && n.term in g.p.tlog && index <= |g.p.tlog[n.term]|
    requires g' == g.(p := Commit(g.p, n.term, index)) && Evolves(g.p, g'.p, id)
    ensures Settled(g'.p, n.term, g'.p.log[id], index)
  {
    hide Inv, Frame, Promises;
    LastTermIs(g.p, id, n);
    assert SettledBy(g'.p, n.term, g'.p.log[id], index, Point(n.term, index));
  }

  lemma LeaderCommitIs(n: Node, index: nat)
    requires index <= LastIndex(n) || index <= n.commit
    ensures var k := LeaderCommit(n, index); k > n.commit ==> k <= index && Committable(n, k)
  {
  }

  /** Advancing the commit index by counting acknowledgements. */
  lemma AdvanceOk(g: Ghost, asked: map<ReadKey, nat>, id: NodeId, n: Node, index: nat) returns (g': Ghost)
    requires Ready(g, asked, id, n) && n.role == Leader && n.commit < index <= LastIndex(n) && Committable(n, index)
    ensures Inv(g'.p) && GhostEvolves(g, g', id) && g'.asks == g.asks && NodeView(g', asked, id, n.(commit := index))
    ensures g'.p.log == g.p.log && g'.p.members == g.p.members
  {
    CanAdvance(g.p, id, n, index);
    CommitEvolves(g.p, id, n.term, index, Replicas(n, index) + {id});
    g' := g.(p := Commit(g.p, n.term, index));
    AdvancedView(g, g', asked, id, n, index);
    hide Inv, Evolves;
  }

  lemma CommittingReplyOk(g: Ghost, asked: map<ReadKey, nat>, limit: int, id: NodeId, n: Node, image: Sessions.Machine, from: NodeId, readId: nat, index: nat) returns (g': Ghost)
    requires Ready(g, asked, id, n) && n.role == Leader && AskedOk(g, asked) && ImageOk(g.p, limit, id, n, image)
    requires n.commit < index <= LastIndex(n) && Committable(n, index) && from in g.p.members && ReplyReads(g, id, n, from, readId)
    ensures var sent := SendAll(n.(commit := index), n.peers, 0);
            var read := AckRead(sent.node, from, readId);
            var applied := ApplyThrough(read.node, index);
            Done(g, g', asked, limit, id, image, StepResult(applied.node, [SaveCommit(index)], read.actions + applied.actions + sent.actions))
  {
    g' := AdvanceOk(g, asked, id, n, index);
    AskedKept(g, g', asked, id);
    ReplyReadsKept(g, g', id, n, from, readId);
    hide Inv, GhostEvolves, NodeView, ActionsOk, AskedOk, ReplyReads, Committable, SendAll, AckRead, ApplyThrough;
    var n1 := n.(commit := index);
    SendAllOk(g', asked, limit, id, n1, image, n.peers, 0);
    var sent := SendAll(n1, n.peers, 0);
    assert ReplyReads(g', id, sent.node, from, readId) by { ReplyReadsSame(g', id, n, sent.node, from, readId); }
    AckReadOk(g', asked, limit, id, sent.node, image, from, readId);
    var read := AckRead(sent.node, from, readId);
    ApplyThroughOk(g', asked, limit, id, read.node, image, index);
    var applied := ApplyThrough(read.node, index);
    ActionsConcat(g', limit, id, image, read.actions, applied.actions);
    ActionsConcat(g', limit, id, image, read.actions + applied.actions, sent.actions);
  }

  lemma ReplyReadsSame(g: Ghost, id: NodeId, n: Node, n': Node, from: NodeId, readId: nat)
    requires ReplyReads(g, id, n, from, readId) && n'.term == n.term
    ensures ReplyReads(g, id, n', from, readId)
  {
  }

  lemma AskedKept(g: Ghost, g': Ghost, asked: map<ReadKey, nat>, id: NodeId)
    requires AskedOk(g, asked) && GhostEvolves(g, g', id)
    ensures AskedOk(g', asked)
  {
    forall k | k in asked ensures AskView(g', asked, k) {
      assert AskView(g, asked, k);
      AskStable(g, g', asked, asked, id, k);
    }
  }

  lemma ReplyReadsKept(g: Ghost, g': Ghost, id: NodeId, n: Node, from: NodeId, readId: nat)
    requires ReplyReads(g, id, n, from, readId) && GhostEvolves(g, g', id)
    ensures ReplyReads(g', id, n, from, readId)
  {
    if readId != 0 { StillHereStable(g.p, g'.p, from, n.term, g.asks[ReadKey(id, n.term, readId)]); }
  }

  lemma PlainReplyOk(g: Ghost, asked: map<ReadKey, nat>, limit: int, id: NodeId, n: Node, image: Sessions.Machine, from: NodeId, readId: nat, send: bool)
    requires Ready(g, asked, id, n) && n.role == Leader && AskedOk(g, asked) && ImageOk(g.p, limit, id, n, image)
    requires from in n.peers && from in g.p.members && ReplyReads(g, id, n, from, readId)
    ensures var sent := if send then SendTo(n, from, PendingReadFor(n, from)) else Effect(n, []);
            var read := AckRead(sent.node, from, readId);
            Done(g, g, asked, limit, id, image, StepResult(read.node, [], sent.actions + read.actions))
  {
    GhostSame(g, id);
    CarriedRead(g, asked, id, n, from);
    hide Inv, GhostEvolves, NodeView, ActionsOk, AskedOk, ReplyReads, SendTo, AckRead, PendingReadFor;
    var sent := if send then SendTo(n, from, PendingReadFor(n, from)) else Effect(n, []);
    NoActions(g, limit, id, image);
    if send { SendToOk(g, asked, limit, id, n, image, from, PendingReadFor(n, from)); }
    ReplyReadsSame(g, id, n, sent.node, from, readId);
    AckReadOk(g, asked, limit, id, sent.node, image, from, readId);
    ActionsConcat(g, limit, id, image, sent.actions, AckRead(sent.node, from, readId).actions);
  }

  lemma AppendReplyOk(g: Ghost, asked: map<ReadKey, nat>, limit: int, id: NodeId, n: Node, image: Sessions.Machine, from: NodeId, m: Message) returns (g': Ghost)
    requires Ready(g, asked, id, n) && AskedOk(g, asked) && ImageOk(g.p, limit, id, n, image)
    requires m.AppendReply? && AppendReplyView(g, from, id, m) && from in g.p.members && from != id
    requires StaleRejection(m) ==> !ActsOn(n, from, m)
    ensures Done(g, g', asked, limit, id, image, OnAppendReply(n, from, m))
  {
    var pending := Get(n.inFlight, from, InFlight(0, 0));
    if m.term > n.term {
      g' := StepDownOk(g, asked, limit, id, n, image, m.term);
    } else if n.role != Leader || m.term != n.term || (pending.requestId != 0 && m.requestId != 0 && m.requestId != pending.requestId) {
      hide Inv, GhostEvolves, NodeView, ActionsOk;
      g' := g;
      GhostSame(g, id);
      NoActions(g, limit, id, image);
    } else {
      assert from in n.peers by { assert from in PeerSet(n.peers); }
      assert ReplyReads(g, id, n, from, m.readId);
      hide Inv, GhostEvolves, NodeView, ActionsOk, AskedOk, ReplyReads, AppendReplyView, CurrentReply, ImageOk;
      g' := CurrentReplyOk(g, asked, limit, id, n, image, from, m);
    }
  }

  lemma CurrentReplyOk(g: Ghost, asked: map<ReadKey, nat>, limit: int, id: NodeId, n: Node, image: Sessions.Machine, from: NodeId, m: Message) returns (g': Ghost)
    requires Ready(g, asked, id, n) && AskedOk(g, asked) && ImageOk(g.p, limit, id, n, image)
    requires m.AppendReply? && AppendReplyView(g, from, id, m) && from in g.p.members && from != id && from in n.peers
    requires n.role == Leader && m.term == n.term && !StaleRejection(m) && ReplyReads(g, id, n, from, m.readId)
    ensures Done(g, g', asked, limit, id, image, CurrentReply(n, from, m, Get(n.inFlight, from, InFlight(0, 0)).leaderCommit))
  {
    hide Inv, GhostEvolves, NodeView, ActionsOk, AskedOk, ReplyReads, AppendReplyView, Committable, SameButPeer, NoteReply, SendAll, AckRead, ApplyThrough, SendTo, PendingReadFor;
    NoteReplyOk(g, asked, id, n, from, m);
    NotedShape(n, from, m);
    var n1 := NoteReply(n, from, m);
    NotedSame(n, n1, from);
    ReplyReadsSame(g, id, n, n1, from, m.readId);
    LeaderCommitIs(n1, LastIndex(n1));
    var index := LeaderCommit(n1, LastIndex(n1));
    if index > n1.commit {
      g' := CommittingReplyOk(g, asked, limit, id, n1, image, from, m.readId, index);
    } else {
      g' := g;
      PlainReplyOk(g, asked, limit, id, n1, image, from, m.readId,
        !m.success || Get(n1.nextIndex, from, 0) <= LastIndex(n1) || PendingReadFor(n1, from) != 0
        || Get(n.inFlight, from, InFlight(0, 0)).leaderCommit < n1.commit);
    }
  }

  lemma NotedSame(n: Node, n': Node, from: NodeId)
    requires SameButPeer(n, n', from)
    ensures n'.role == n.role && n'.term == n.term && n'.peers == n.peers && n'.log == n.log && n'.base == n.base && n'.commit == n.commit
  {
  }

  // ---------------------------------------------------------------- new reads

  /** Accepting a read records which Terms have a Leader at that moment. */
  lemma AskedNow(g: Ghost, g': Ghost, asked: map<ReadKey, nat>, asked': map<ReadKey, nat>, id: NodeId, n: Node, readId: nat, high: nat)
    requires Ready(g, asked, id, n) && AskedOk(g, asked) && g.asks.Keys == asked.Keys && n.role == Leader && n.readReady
    requires high > 0 ==> exists p :: p in g.p.commits && high <= p.index
    requires ReadKey(id, n.term, readId) !in asked
    requires g' == g.(asks := g.asks[ReadKey(id, n.term, readId) := g.p.tlog.Keys]) && asked' == asked[ReadKey(id, n.term, readId) := high]
    ensures AsksOk(g') && AskView(g', asked', ReadKey(id, n.term, readId))
  {
    var key := ReadKey(id, n.term, readId);
    forall k, u | k in g'.asks && u in g'.asks[k] ensures u in g'.p.tlog {
      if k != key { assert AskView(g, asked, k); }
    }
    if high > 0 {
      var p :| p in g.p.commits && high <= p.index;
      assert CommitOk(g.p, p);
    }
  }

  lemma NewReadView(g: Ghost, g': Ghost, asked: map<ReadKey, nat>, asked': map<ReadKey, nat>, id: NodeId, n: Node, readId: nat, high: nat)
    requires Ready(g, asked, id, n) && g.asks.Keys == asked.Keys && n.role == Leader && n.readReady
    requires ReadKey(id, n.term, readId) !in asked && AsksOk(g')
    requires g' == g.(asks := g.asks[ReadKey(id, n.term, readId) := g.p.tlog.Keys]) && asked' == asked[ReadKey(id, n.term, readId) := high]
    ensures NodeView(g', asked', id, n.(waiting := n.waiting[readId := PendingRead({n.id}, 0, false)]))
  {
    var n', key := n.(waiting := n.waiting[readId := PendingRead({n.id}, 0, false)]), ReadKey(id, n.term, readId);
    InTermStillHere(g', id, key);
    hide Inv, AsksOk;
    forall p | p in n'.peers ensures PeerView(g'.p, n', p) { assert PeerView(g.p, n, p); }
    forall q | q in n'.waiting ensures ReadView(g', asked', id, n', q) {
      if q != readId { assert ReadView(g, asked, id, n, q); }
    }
  }

  lemma ConfirmReadOk(g: Ghost, asked: map<ReadKey, nat>, high: nat, limit: int, id: NodeId, n: Node, image: Sessions.Machine, readId: nat) returns (g': Ghost)
    requires Ready(g, asked, id, n) && AskedOk(g, asked) && g.asks.Keys == asked.Keys && ImageOk(g.p, limit, id, n, image)
    requires high > 0 ==> exists p :: p in g.p.commits && high <= p.index
    requires ReadKey(id, n.term, readId) !in asked
    ensures var r, key := OnConfirmRead(n, readId), ReadKey(id, n.term, readId);
            var asked' := if n.role == Leader && n.readReady then asked[key := high] else asked;
            && Inv(g'.p) && GhostEvolves(g, g', id) && g'.asks.Keys == asked'.Keys
            && NodeView(g', asked', id, r.node) && ActionsOk(g', limit, id, image, r.actions)
            && (key in asked' ==> AskView(g', asked', key))
  {
    g' := g;
    var key := ReadKey(id, n.term, readId);
    GhostSame(g, id);
    if n.role == Leader && n.readReady {
      g' := g.(asks := g.asks[key := g.p.tlog.Keys]);
      var asked' := asked[key := high];
      AskedNow(g, g', asked, asked', id, n, readId, high);
      NewReadView(g, g', asked, asked', id, n, readId, high);
      hide Inv, Evolves, NodeView, ActionsOk, AskedOk, AskView, AsksOk;
      var n1 := n.(waiting := n.waiting[readId := PendingRead({n.id}, 0, false)]);
      SendAllOk(g', asked', limit, id, n1, image, n.peers, readId);
    } else {
      hide Inv, GhostEvolves, NodeView, ActionsOk, AskedOk, AskView;
      ShowOk(g, limit, id, image, ReadRejected(readId, n.leaderId));
      ShowOk(g, limit, id, image, ReadRejected(readId, ""));
    }
  }
}
