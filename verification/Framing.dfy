/** A step of one Node keeps the Cluster's picture of every other Node and of
    everything sent, shown and asked before. */
module Framing {
  import opened Types
  import opened Messages
  import opened Node
  import opened Cluster
  import opened Protocol
  import opened ProtocolProofs
  import opened Coupling
  import opened Stability
  import Sessions

  ghost predicate GhostEvolves(g: Ghost, g': Ghost, id: NodeId) {
    && Evolves(g.p, g'.p, id)
    && (forall k :: k in g.asks ==> k in g'.asks && g'.asks[k] == g.asks[k])
  }

  lemma SettledStable(s: State, s': State, t: nat, t': nat, log: seq<Entry>, log': seq<Entry>, k: nat)
    requires Grows(s, s') && Settled(s, t, log, k) && t <= t' && log <= log'
    ensures Settled(s', t', log', k)
  {
    if k > 0 {
      var p :| p in s.commits && SettledBy(s, t, log, k, p);
      assert s'.tlog[p.term][..k] == s.tlog[p.term][..k] == log[..k] == log'[..k];
      assert SettledBy(s', t', log', k, p);
    }
  }

  lemma StillHereStable(s: State, s': State, v: NodeId, t: nat, terms: set<nat>)
    requires Grows(s, s') && StillHere(s, v, t, terms)
    ensures StillHere(s', v, t, terms)
  {
  }

  lemma AllHereStable(s: State, s': State, acks: set<NodeId>, t: nat, terms: set<nat>)
    requires Grows(s, s') && AllHere(s, acks, t, terms)
    ensures AllHere(s', acks, t, terms)
  {
    forall v | v in acks ensures StillHere(s', v, t, terms) {
      assert StillHere(s, v, t, terms);
      StillHereStable(s, s', v, t, terms);
    }
  }

  lemma OtherLogView(s: State, s': State, id: NodeId, j: NodeId, n: Node)
    requires Evolves(s, s', id) && j != id && LogView(s, j, n)
    ensures LogView(s', j, n)
  {
    assert Ballot(j, n.term) in s'.voted <==> Ballot(j, n.term) in s.voted;
  }

  lemma OtherLeads(s: State, s': State, id: NodeId, j: NodeId, n: Node)
    requires Evolves(s, s', id) && j != id && Leads(s, j, n)
    ensures Leads(s', j, n) && CandLen(s', n.term) == CandLen(s, n.term)
  {
  }

  lemma OtherLeaderView(s: State, s': State, id: NodeId, j: NodeId, n: Node)
    requires Evolves(s, s', id) && j != id && LeaderView(s, j, n)
    ensures LeaderView(s', j, n)
  {
    if n.role == Leader {
      OtherLeads(s, s', id, j, n);
      forall p | p in n.peers ensures PeerView(s', n, p) {
        assert PeerView(s, n, p);
        assert Acked(s, p, n.term) <= Acked(s', p, n.term);
      }
    }
  }

  lemma OtherCandidateView(s: State, s': State, id: NodeId, j: NodeId, n: Node)
    requires InvDomains(s) && Evolves(s, s', id) && j != id && CandidateView(s, j, n)
    requires InvDomains(s')
    ensures CandidateView(s', j, n)
  {
    if n.role == Candidate {
      if n.term in s'.ldr && n.term !in s.ldr { assert n.term in s'.tlog && n.term !in s.tlog; }
      forall v | v in n.votes ensures VotedFor(s', v, n.term, j) { assert VotedFor(s, v, n.term, j); }
    }
  }

  lemma OtherReadsView(g: Ghost, g': Ghost, asked: map<ReadKey, nat>, asked': map<ReadKey, nat>, id: NodeId, j: NodeId, n: Node)
    requires GhostEvolves(g, g', id) && j != id && ReadsView(g, asked, j, n)
    requires forall k :: k in asked ==> k in asked' && asked'[k] == asked[k]
    ensures ReadsView(g', asked', j, n)
  {
    forall r | r in n.waiting ensures ReadView(g', asked', j, n, r) {
      assert ReadView(g, asked, j, n, r);
      OtherLeads(g.p, g'.p, id, j, n);
      var key := ReadKey(j, n.term, r);
      AllHereStable(g.p, g'.p, n.waiting[r].acks, n.term, g.asks[key]);
    }
  }

  lemma OtherNodeView(g: Ghost, g': Ghost, asked: map<ReadKey, nat>, asked': map<ReadKey, nat>, id: NodeId, j: NodeId, n: Node)
    requires Inv(g.p) && Inv(g'.p) && GhostEvolves(g, g', id) && j != id && NodeView(g, asked, j, n)
    requires forall k :: k in asked ==> k in asked' && asked'[k] == asked[k]
    ensures NodeView(g', asked', j, n)
  {
    OtherLogView(g.p, g'.p, id, j, n);
    OtherCandidateView(g.p, g'.p, id, j, n);
    OtherLeaderView(g.p, g'.p, id, j, n);
    OtherReadsView(g, g', asked, asked', id, j, n);
    SettledStable(g.p, g'.p, n.term, n.term, g.p.log[j], g'.p.log[j], n.commit);
  }

  lemma AppendRequestStable(g: Ghost, g': Ghost, id: NodeId, from: NodeId, to: NodeId, m: Message)
    requires GhostEvolves(g, g', id) && m.AppendRequest? && AppendRequestView(g, from, to, m)
    ensures AppendRequestView(g', from, to, m)
  {
    var l, l' := g.p.tlog[m.term], g'.p.tlog[m.term];
    assert l'[m.prevIndex..m.prevIndex + |m.entries|] == l[m.prevIndex..m.prevIndex + |m.entries|];
    SettledStable(g.p, g'.p, m.term, m.term, l, l', m.leaderCommit);
    assert Above(g.p, to, m.term, m.prevIndex + 1);
    assert Above(g'.p, to, m.term, m.prevIndex + 1);
  }

  lemma AppendReplyStable(g: Ghost, g': Ghost, id: NodeId, from: NodeId, to: NodeId, m: Message)
    requires GhostEvolves(g, g', id) && m.AppendReply? && AppendReplyView(g, from, to, m)
    ensures AppendReplyView(g', from, to, m)
  {
    if !StaleRejection(m) {
      assert Acked(g.p, from, m.term) <= Acked(g'.p, from, m.term);
      assert m.success ==> InStepTo(g'.p, from, m.term, m.matchIndex);
      assert !m.success ==> HintOk(g'.p, from, m.term, Hint(m.conflictTerm, m.conflictIndex));
      if m.readId != 0 {
        StillHereStable(g.p, g'.p, from, m.term, g.asks[ReadKey(to, m.term, m.readId)]);
      }
    }
  }

  lemma SnapshotRequestStable(g: Ghost, g': Ghost, id: NodeId, limit: int, from: NodeId, to: NodeId, m: Message, image: Sessions.Machine)
    requires GhostEvolves(g, g', id) && m.SnapshotRequest? && SnapshotRequestView(g, limit, from, to, m, image)
    ensures SnapshotRequestView(g', limit, from, to, m, image)
  {
    var l, l' := g.p.tlog[m.term], g'.p.tlog[m.term];
    assert l'[..m.index] == l[..m.index];
    SettledStable(g.p, g'.p, m.term, m.term, l, l', m.index);
    assert Above(g.p, to, m.term, m.index);
    assert Above(g'.p, to, m.term, m.index);
  }

  lemma PacketStable(g: Ghost, g': Ghost, id: NodeId, limit: int, p: Packet)
    requires GhostEvolves(g, g', id) && PacketView(g, limit, p)
    ensures PacketView(g', limit, p)
  {
    match p.msg
    case AppendRequest(_, _, _, _, _, _, _) => AppendRequestStable(g, g', id, p.from, p.to, p.msg);
    case AppendReply(_, _, _, _, _, _, _) => AppendReplyStable(g, g', id, p.from, p.to, p.msg);
    case SnapshotRequest(_, _, _, _, _) => SnapshotRequestStable(g, g', id, limit, p.from, p.to, p.msg, p.image);
    case SnapshotReply(_, _, _, _, _, _) =>
      assert Acked(g.p, p.from, p.msg.term) <= Acked(g'.p, p.from, p.msg.term);
      assert p.msg.success && p.msg.done ==> InStepTo(g'.p, p.from, p.msg.term, p.msg.index);
    case _ =>
  }

  lemma AskStable(g: Ghost, g': Ghost, asked: map<ReadKey, nat>, asked': map<ReadKey, nat>, id: NodeId, k: ReadKey)
    requires GhostEvolves(g, g', id) && k in asked && k in asked' && asked'[k] == asked[k] && AskView(g, asked, k)
    ensures AskView(g', asked', k)
  {
    if asked[k] > 0 {
      var p :| p in g.p.commits && p.term in g.asks[k] && asked[k] <= p.index;
      assert p in g'.p.commits;
    }
  }

  /** Put a new picture of the acting Node beside the old picture of the rest. */
  lemma OtherHostView(g: Ghost, g': Ghost, id: NodeId, limit: int, j: NodeId, h: Host)
    requires GhostEvolves(g, g', id) && j != id && HostView(g.p, limit, j, h)
    ensures HostView(g'.p, limit, j, h)
  {
  }

  lemma SeenStable(g: Ghost, g': Ghost, id: NodeId, o: Seen)
    requires GhostEvolves(g, g', id) && SeenView(g.p, o)
    ensures SeenView(g'.p, o)
  {
  }

  lemma ActedOn(g: Ghost, g': Ghost, asked: map<ReadKey, nat>, id: NodeId, n: Node)
    requires GhostEvolves(g, g', id) && NodeView(g', asked, id, n)
    ensures Grows(g.p, g'.p) && CommitView(g'.p, id, n) && g'.p.members == g.p.members
  {
  }

  lemma Recouple(c: Cluster, g: Ghost, c': Cluster, g': Ghost, id: NodeId, packets: set<Packet>, shown: set<Seen>)
    requires Coupled(c, g) && Inv(g'.p) && GhostEvolves(g, g', id) && id in c.hosts
    requires c'.limit == c.limit && c'.hosts.Keys == c.hosts.Keys
    requires forall j :: j in c.hosts && j != id ==> c'.hosts[j] == c.hosts[j]
    requires NodeView(g', c'.asked, id, c'.hosts[id].node) && HostView(g'.p, c.limit, id, c'.hosts[id])
    requires c'.net == c.net + packets && c'.seen == c.seen + shown
    requires forall p {:trigger PacketView(g', c.limit, p)} :: p in packets ==> PacketView(g', c.limit, p)
    requires forall o {:trigger SeenView(g'.p, o)} :: o in shown ==> SeenView(g'.p, o)
    requires forall k :: k in c.asked ==> k in c'.asked && c'.asked[k] == c.asked[k]
    requires forall k {:trigger AskView(g', c'.asked, k)} :: k in c'.asked && k !in c.asked ==> AskView(g', c'.asked, k)
    requires g'.asks.Keys == c'.asked.Keys
    requires c'.high == Max(c.high, c'.hosts[id].node.commit)
    ensures Coupled(c', g')
  {
    hide Inv, NodeView, HostView, PacketView, SeenView, AskView, GhostEvolves, Grows, Frame, Promises;
    ActedOn(g, g', c'.asked, id, c'.hosts[id].node);
    HighKept(c, g, g', c'.hosts[id].node, id);
    forall j | j in c'.hosts ensures NodeView(g', c'.asked, j, c'.hosts[j].node) {
      if j != id {
        assert NodeView(g, c.asked, j, c.hosts[j].node);
        OtherNodeView(g, g', c.asked, c'.asked, id, j, c.hosts[j].node);
      }
    }
    forall j | j in c'.hosts ensures HostView(g'.p, c'.limit, j, c'.hosts[j]) {
      if j != id {
        assert HostView(g.p, c.limit, j, c.hosts[j]);
        OtherHostView(g, g', id, c.limit, j, c.hosts[j]);
      }
    }
    forall p | p in c'.net ensures PacketView(g', c'.limit, p) {
      if p in c.net {
        assert PacketView(g, c.limit, p);
        PacketStable(g, g', id, c.limit, p);
      }
    }
    forall o | o in c'.seen ensures SeenView(g'.p, o) {
      if o in c.seen {
        assert SeenView(g.p, o);
        SeenStable(g, g', id, o);
      }
    }
    forall k | k in c'.asked ensures AskView(g', c'.asked, k) {
      if k in c.asked {
        assert AskView(g, c.asked, k);
        AskStable(g, g', c.asked, c'.asked, id, k);
      }
    }
  }

  lemma HighKept(c: Cluster, g: Ghost, g': Ghost, n: Node, id: NodeId)
    requires Grows(g.p, g'.p) && (c.high > 0 ==> exists p :: p in g.p.commits && c.high <= p.index)
    requires CommitView(g'.p, id, n)
    ensures var high := Max(c.high, n.commit); high > 0 ==> exists p :: p in g'.p.commits && high <= p.index
  {
    var high := Max(c.high, n.commit);
    if high > 0 {
      if high == c.high {
        var p :| p in g.p.commits && c.high <= p.index;
        assert p in g'.p.commits;
      } else {
        var p :| p in g'.p.commits && SettledBy(g'.p, n.term, g'.p.log[id], n.commit, p);
      }
    }
  }
}
