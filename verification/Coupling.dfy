/** How a Cluster and the protocol history behind it fit together. */
module Coupling {
  import opened Types
  import opened Messages
  import opened Node
  import opened Cluster
  import opened Protocol
  import Sessions

  /** The history of a Cluster: the protocol state, and for each accepted read
      the Terms that already had a Leader. */
  datatype Ghost = Ghost(p: State, asks: map<ReadKey, set<nat>>)

  function CandLen(s: State, t: nat): nat
    requires t in s.ldr && Ballot(s.ldr[t], t) in s.cand
  {
    |s.cand[Ballot(s.ldr[t], t)]|
  }

  /** The Follower is in Term t and its log is a prefix of that Leader's log. */
  predicate Synced(s: State, f: NodeId, t: nat) {
    f in s.term && f in s.log && t in s.tlog && s.term[f] == t && s.log[f] <= s.tlog[t]
  }

  /** The Follower is past Term t or in step with that Term's Leader. */
  predicate InStep(s: State, f: NodeId, t: nat) {
    f in s.term && t in s.tlog && (t < s.term[f] || Synced(s, f, t))
  }

  /** The Follower is past Term t, or in step and holding at least k entries. */
  predicate InStepTo(s: State, f: NodeId, t: nat, k: nat) {
    InStep(s, f, t) && (t == s.term[f] ==> f in s.log && k <= |s.log[f]|)
  }

  /** The Follower is past Term t, or in step with its Leader, or shares fewer
      than m entries with it. A request starting at m or later is then safe to
      acknowledge with the Follower's whole log. */
  predicate Above(s: State, f: NodeId, t: nat, m: nat) {
    && f in s.term && f in s.log
    && t in s.tlog && t in s.ldr && Ballot(s.ldr[t], t) in s.cand
    && (|| InStep(s, f, t)
        || CandLen(s, t) < m
        || (s.term[f] == t && !Shares(s.log[f], s.tlog[t], m)))
  }

  /** A conflict hint never points into the part of the log both sides share. */
  ghost predicate HintOk(s: State, f: NodeId, t: nat, h: Hint) {
    && f in s.term && f in s.log && t in s.tlog
    && (|| InStep(s, f, t)
        || (s.term[f] == t && forall n: nat {:trigger Shares(s.log[f], s.tlog[t], n)} ::
              Shares(s.log[f], s.tlog[t], n) ==> HintAbove(s.tlog[t], n, h)))
  }

  predicate HintAbove(log: seq<Entry>, n: nat, h: Hint)
    requires n <= |log|
  {
    if h.term == 0 then n < h.index
    else TermOf(log, n) <= h.term && (n < h.index || TermOf(log, n) == h.term)
  }

  /** The first k entries of a log held in Term t are committed. */
  ghost predicate Settled(s: State, t: nat, log: seq<Entry>, k: nat) {
    k <= |log| && (k == 0 || exists p :: p in s.commits && SettledBy(s, t, log, k, p))
  }

  predicate SettledBy(s: State, t: nat, log: seq<Entry>, k: nat, p: Point) {
    p.term <= t && k <= p.index && p.term in s.tlog && Shares(log, s.tlog[p.term], k)
  }

  // ------------------------------------------------------------------- Nodes

  predicate LogView(s: State, id: NodeId, n: Node) {
    && id in s.members && id in s.term && id in s.log
    && n.id == id && id != "" && IsPeerList(s.members, id, n.peers)
    && s.term[id] == n.term
    && n.votedFor == Get(s.voted, Ballot(id, n.term), "")
    && n.base <= |s.log[id]| && n.log == s.log[id][n.base..]
    && n.baseTerm == TermOf(s.log[id], n.base)
  }

  ghost predicate CommitView(s: State, id: NodeId, n: Node) {
    && id in s.log
    && n.base <= n.lastApplied <= n.commit <= |s.log[id]|
    && Settled(s, n.term, s.log[id], n.commit)
  }

  predicate CandidateView(s: State, id: NodeId, n: Node) {
    n.role == Candidate ==>
      && id in s.log
      && Ballot(id, n.term) in s.cand && s.cand[Ballot(id, n.term)] == s.log[id]
      && (n.term in s.ldr ==> s.ldr[n.term] != id)
      && n.votes <= s.members
      && forall v {:trigger VotedFor(s, v, n.term, id)} :: v in n.votes ==> VotedFor(s, v, n.term, id)
  }

  predicate Leads(s: State, id: NodeId, n: Node) {
    && id in s.log
    && n.term in s.tlog && n.term in s.ldr && s.ldr[n.term] == id
    && Ballot(id, n.term) in s.cand
    && s.tlog[n.term] == s.log[id]
  }

  predicate PeerView(s: State, n: Node, peer: NodeId) {
    && Get(n.matchIndex, peer, 0) <= Acked(s, peer, n.term)
    && peer in n.nextIndex && 0 < n.nextIndex[peer]
    && Above(s, peer, n.term, Max(n.nextIndex[peer], n.base))
    && (peer in n.snapInFlight ==> Above(s, peer, n.term, n.base))
  }

  predicate LeaderView(s: State, id: NodeId, n: Node) {
    n.role == Leader ==>
      && Leads(s, id, n)
      && Acked(s, id, n.term) == |s.log[id]|
      && (forall p {:trigger PeerView(s, n, p)} :: p in n.peers ==> PeerView(s, n, p))
      && (forall p :: p in s.commits && p.term == n.term ==> p.index <= n.commit)
      && (n.readReady ==> CandLen(s, n.term) < n.commit)
  }

  /** Reads wait only at a Leader; a confirmed one is covered by its commit index. */
  ghost predicate ReadsView(g: Ghost, asked: map<ReadKey, nat>, id: NodeId, n: Node) {
    && (n.role != Leader ==> n.waiting == map[])
    && forall r {:trigger ReadView(g, asked, id, n, r)} :: r in n.waiting ==> ReadView(g, asked, id, n, r)
  }

  ghost predicate ReadView(g: Ghost, asked: map<ReadKey, nat>, id: NodeId, n: Node, r: nat)
    requires r in n.waiting
  {
    var key := ReadKey(id, n.term, r);
    && key in asked && key in g.asks
    && n.role == Leader && Leads(g.p, id, n) && CandLen(g.p, n.term) < n.commit
    && n.waiting[r].acks <= g.p.members
    && AllHere(g.p, n.waiting[r].acks, n.term, g.asks[key])
    && (n.waiting[r].confirmed ==> asked[key] <= n.waiting[r].commitIndex <= n.commit)
  }

  /** The Node did not help elect any later Leader among these Terms. */
  predicate StillHere(s: State, v: NodeId, t: nat, terms: set<nat>) {
    forall u :: u in terms && t < u ==> u in s.electors && v !in s.electors[u]
  }

  predicate AllHere(s: State, acks: set<NodeId>, t: nat, terms: set<nat>) {
    forall v {:trigger StillHere(s, v, t, terms)} :: v in acks ==> StillHere(s, v, t, terms)
  }

  /** The height recorded for a read was reached by a Leader elected by then. */
  ghost predicate AskView(g: Ghost, asked: map<ReadKey, nat>, key: ReadKey)
    requires key in asked
  {
    && key in g.asks
    && (forall u :: u in g.asks[key] ==> u in g.p.tlog)
    && (asked[key] > 0 ==> exists p :: p in g.p.commits && p.term in g.asks[key] && asked[key] <= p.index)
  }

  ghost predicate NodeView(g: Ghost, asked: map<ReadKey, nat>, id: NodeId, n: Node) {
    && LogView(g.p, id, n)
    && CommitView(g.p, id, n)
    && CandidateView(g.p, id, n)
    && LeaderView(g.p, id, n)
    && ReadsView(g, asked, id, n)
  }

  predicate HostView(s: State, limit: int, id: NodeId, h: Host) {
    && id in s.log
    && h.node.lastApplied <= |s.log[id]| && h.node.base <= |s.log[id]|
    && h.machine == Sessions.Replay(Sessions.Empty(limit), s.log[id][..h.node.lastApplied])
    && h.image == Sessions.Replay(Sessions.Empty(limit), s.log[id][..h.node.base])
  }

  // ----------------------------------------------------------------- packets

  ghost predicate PacketView(g: Ghost, limit: int, p: Packet) {
    var s := g.p;
    && p.from in s.members && p.to in s.members && p.from != p.to
    && match p.msg
       case PreVoteRequest(_, _, _) => true
       case PreVoteReply(_, _, _) => true
       case VoteRequest(t, lastIndex, lastTerm) => VoteRequestView(s, p.from, t, lastIndex, lastTerm)
       case VoteReply(t, granted) => granted ==> VotedFor(s, p.from, t, p.to)
       case AppendRequest(_, _, _, _, _, _, _) => AppendRequestView(g, p.from, p.to, p.msg)
       case AppendReply(_, _, _, _, _, _, _) => AppendReplyView(g, p.from, p.to, p.msg)
       case SnapshotRequest(_, _, _, _, _) => SnapshotRequestView(g, limit, p.from, p.to, p.msg, p.image)
       case SnapshotReply(_, _, _, _, _, _) => SnapshotReplyView(s, p.from, p.msg)
  }

  predicate VoteRequestView(s: State, from: NodeId, t: nat, lastIndex: nat, lastTerm: nat) {
    && Ballot(from, t) in s.cand
    && lastIndex == |s.cand[Ballot(from, t)]|
    && lastTerm == TermOf(s.cand[Ballot(from, t)], lastIndex)
  }

  ghost predicate AppendRequestView(g: Ghost, from: NodeId, to: NodeId, m: Message)
    requires m.AppendRequest?
  {
    var s := g.p;
    && m.term in s.tlog && m.term in s.ldr && s.ldr[m.term] == from
    && m.prevIndex + |m.entries| <= |s.tlog[m.term]|
    && m.entries == s.tlog[m.term][m.prevIndex..m.prevIndex + |m.entries|]
    && m.prevTerm == TermOf(s.tlog[m.term], m.prevIndex)
    && (m.entries == [] ==> m.prevTerm == m.term)
    && Above(s, to, m.term, m.prevIndex + 1)
    && Settled(s, m.term, s.tlog[m.term], m.leaderCommit)
    && (m.readId != 0 ==> ReadKey(from, m.term, m.readId) in g.asks)
  }

  ghost predicate AppendReplyView(g: Ghost, from: NodeId, to: NodeId, m: Message)
    requires m.AppendReply?
  {
    !StaleRejection(m) ==>
      && m.term in g.p.tlog
      && (m.success ==> m.matchIndex <= Acked(g.p, from, m.term) && InStepTo(g.p, from, m.term, m.matchIndex))
      && (!m.success ==> HintOk(g.p, from, m.term, Hint(m.conflictTerm, m.conflictIndex)))
      && (m.readId != 0 ==>
            && ReadKey(to, m.term, m.readId) in g.asks
            && StillHere(g.p, from, m.term, g.asks[ReadKey(to, m.term, m.readId)]))
  }

  ghost predicate SnapshotRequestView(g: Ghost, limit: int, from: NodeId, to: NodeId, m: Message, image: Sessions.Machine)
    requires m.SnapshotRequest?
  {
    var s := g.p;
    && m.requestId > 0
    && m.term in s.tlog && m.term in s.ldr && s.ldr[m.term] == from
    && m.index <= |s.tlog[m.term]|
    && m.snapTerm == TermOf(s.tlog[m.term], m.index)
    && Above(s, to, m.term, m.index)
    && Settled(s, m.term, s.tlog[m.term], m.index)
    && image == Sessions.Replay(Sessions.Empty(limit), s.tlog[m.term][..m.index])
  }

  predicate SnapshotReplyView(s: State, from: NodeId, m: Message)
    requires m.SnapshotReply?
  {
    && m.requestId > 0
    && (m.success && m.done ==>
          m.index <= Acked(s, from, m.term) && InStepTo(s, from, m.term, m.index))
  }

  /** What a Node showed agrees with what is chosen and who was elected. */
  predicate SeenView(s: State, o: Seen) {
    match o.action
    case ApplyEntry(e) => 0 < e.index <= |s.chosen| && s.chosen[e.index - 1] == e
    case BecameLeader(t) => t in s.ldr && s.ldr[t] == o.node
    case _ => true
  }

  ghost predicate Coupled(c: Cluster, g: Ghost) {
    && Inv(g.p)
    && g.p.members == c.hosts.Keys
    && 0 <= c.limit
    && (forall id {:trigger NodeView(g, c.asked, id, c.hosts[id].node)} :: id in c.hosts ==> NodeView(g, c.asked, id, c.hosts[id].node))
    && (forall id {:trigger HostView(g.p, c.limit, id, c.hosts[id])} :: id in c.hosts ==> HostView(g.p, c.limit, id, c.hosts[id]))
    && (forall p {:trigger PacketView(g, c.limit, p)} :: p in c.net ==> PacketView(g, c.limit, p))
    && (forall o {:trigger SeenView(g.p, o)} :: o in c.seen ==> SeenView(g.p, o))
    && (forall k {:trigger AskView(g, c.asked, k)} :: k in c.asked ==> AskView(g, c.asked, k))
    && g.asks.Keys == c.asked.Keys
    && (c.high > 0 ==> exists p :: p in g.p.commits && c.high <= p.index)
  }
}
