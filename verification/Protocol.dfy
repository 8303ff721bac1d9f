/** The replication protocol with everything but its safety argument removed.

    A State records what every Node holds and, as history no Node ever reads,
    each vote made durable, the log each Candidate stood with, the log each
    elected Leader built, which prefix of which Leader's log each Node has
    acknowledged, and every position a Leader committed. The transitions are
    the eight effects a core handler can have; ProtocolProofs shows that they
    keep Inv. */
module Protocol {
  import opened Types
  import opened Quorums

  /** One Node in one Term. */
  datatype Ballot = Ballot(node: NodeId, term: nat)

  /** One index of the log built by the Leader of one Term. */
  datatype Point = Point(term: nat, index: nat)

  datatype State = State(
    members: set<NodeId>,
    term: map<NodeId, nat>,
    log: map<NodeId, seq<Entry>>,
    voted: map<Ballot, NodeId>,
    cand: map<Ballot, seq<Entry>>,
    tlog: map<nat, seq<Entry>>,
    ldr: map<nat, NodeId>,
    electors: map<nat, set<NodeId>>,
    acked: map<Ballot, nat>,
    commits: set<Point>,
    chosen: seq<Entry>)

  function Acked(s: State, v: NodeId, t: nat): nat { Get(s.acked, Ballot(v, t), 0) }

  /** The Leader of Term t wrote the entry at index k of its log itself. */
  predicate IsPoint(s: State, t: nat, k: nat) {
    t in s.tlog && 0 < k <= |s.tlog[t]| && s.tlog[t][k - 1].term == t
  }

  /** A majority has left Term t without acknowledging index k, so index k of
      Term t can never be committed by counting acknowledgements. */
  ghost predicate Blocked(s: State, t: nat, k: nat) {
    exists q :: IsQuorum(s.members, q) && BlockedBy(s, q, t, k)
  }

  predicate BlockedBy(s: State, q: set<NodeId>, t: nat, k: nat) {
    forall v :: v in q ==> v in s.term && t < s.term[v] && Acked(s, v, t) < k
  }

  predicate AckedBy(s: State, q: set<NodeId>, t: nat, k: nat) {
    forall v :: v in q ==> k <= Acked(s, v, t)
  }

  /** Section 5.4.1 of the extended Raft paper, as in logIsAtLeastAsUpToDate. */
  predicate UpToDate(candidate: seq<Entry>, local: seq<Entry>) {
    var ct, lt := TermOf(candidate, |candidate|), TermOf(local, |local|);
    ct > lt || (ct == lt && |candidate| >= |local|)
  }

  // ---------------------------------------------------------------- invariant

  /** The entry at offset i, and everything before it, is what the Leader of
      that entry's Term holds there. */
  predicate AnchoredAt(s: State, l: seq<Entry>, i: nat)
    requires i < |l|
  {
    l[i].term in s.tlog && Shares(l, s.tlog[l[i].term], i + 1)
  }

  predicate Anchored(s: State, l: seq<Entry>) {
    && WellIndexed(l, 0)
    && forall i {:trigger AnchoredAt(s, l, i)} :: 0 <= i < |l| ==> AnchoredAt(s, l, i)
  }

  predicate InvDomains(s: State) {
    && "" !in s.members
    && s.term.Keys == s.members && s.log.Keys == s.members
    && s.ldr.Keys == s.tlog.Keys && s.electors.Keys == s.tlog.Keys
    && (forall b {:trigger VoteOk(s, b)} :: b in s.voted ==> VoteOk(s, b))
    && (forall b {:trigger CandOk(s, b)} :: b in s.cand ==> CandOk(s, b))
    && (forall b {:trigger AckOk(s, b)} :: b in s.acked ==> AckOk(s, b))
  }

  predicate VoteOk(s: State, b: Ballot)
    requires b in s.voted
  {
    b.node in s.term && b.term <= s.term[b.node] && Ballot(s.voted[b], b.term) in s.cand
  }

  predicate CandOk(s: State, b: Ballot)
    requires b in s.cand
  {
    && b.node in s.term && 0 < b.term <= s.term[b.node]
    && b in s.voted && s.voted[b] == b.node
    && Anchored(s, s.cand[b])
    && forall i :: 0 <= i < |s.cand[b]| ==> s.cand[b][i].term < b.term
  }

  predicate AckOk(s: State, b: Ballot)
    requires b in s.acked
  {
    && b.node in s.term && b.term <= s.term[b.node]
    && b.term in s.tlog && s.acked[b] <= |s.tlog[b.term]|
  }

  predicate InvNodeLogs(s: State) {
    forall n {:trigger NodeLogOk(s, n)} :: n in s.members ==> NodeLogOk(s, n)
  }

  predicate NodeLogOk(s: State, n: NodeId) {
    && n in s.log && n in s.term
    && Anchored(s, s.log[n])
    && forall i :: 0 <= i < |s.log[n]| ==> s.log[n][i].term <= s.term[n]
  }

  predicate InvLeaderLogs(s: State) {
    forall t {:trigger LeaderLogOk(s, t)} :: t in s.tlog ==> LeaderLogOk(s, t)
  }

  /** A Leader's log is the log it stood with, then only entries of its Term. */
  predicate LeaderLogOk(s: State, t: nat) {
    && t in s.tlog && t in s.ldr && t in s.electors
    && Ballot(s.ldr[t], t) in s.cand
    && Anchored(s, s.tlog[t])
    && var c := |s.cand[Ballot(s.ldr[t], t)]|;
    && Shares(s.cand[Ballot(s.ldr[t], t)], s.tlog[t], c)
    && c < |s.tlog[t]|
    && (forall i :: 0 <= i < c ==> s.tlog[t][i].term < t)
    && (forall i :: c <= i < |s.tlog[t]| ==> s.tlog[t][i].term == t)
    && IsQuorum(s.members, s.electors[t])
    && forall v {:trigger VotedFor(s, v, t, s.ldr[t])} :: v in s.electors[t] ==> VotedFor(s, v, t, s.ldr[t])
  }

  predicate VotedFor(s: State, v: NodeId, t: nat, c: NodeId) {
    Ballot(v, t) in s.voted && s.voted[Ballot(v, t)] == c
  }

  /** What a Node acknowledged it still holds, unless that can no longer matter. */
  ghost predicate NodeAckOk(s: State, v: NodeId, t: nat, k: nat) {
    v in s.log && IsPoint(s, t, k) && k <= Acked(s, v, t) ==>
      Shares(s.log[v], s.tlog[t], k) || Blocked(s, t, k)
  }

  /** What a voter had acknowledged, its Candidate holds, unless blocked. */
  ghost predicate VoteAckOk(s: State, b: Ballot, t: nat, k: nat) {
    b in s.voted && Ballot(s.voted[b], b.term) in s.cand && t < b.term && IsPoint(s, t, k) && k <= Acked(s, b.node, t) ==>
      Shares(s.cand[Ballot(s.voted[b], b.term)], s.tlog[t], k) || Blocked(s, t, k)
  }

  /** The Leader of `later` holds index k of an earlier Leader's log, unless blocked. */
  ghost predicate CompleteOk(s: State, later: nat, t: nat, k: nat) {
    later in s.tlog && t < later && IsPoint(s, t, k) ==>
      Shares(s.tlog[later], s.tlog[t], k) || Blocked(s, t, k)
  }

  ghost predicate InvNodeAcks(s: State) { forall v, t: nat, k: nat :: NodeAckOk(s, v, t, k) }

  ghost predicate InvVoteAcks(s: State) { forall b, t: nat, k: nat :: VoteAckOk(s, b, t, k) }

  ghost predicate InvComplete(s: State) { forall later: nat, t: nat, k: nat :: CompleteOk(s, later, t, k) }

  ghost predicate CommitOk(s: State, p: Point) {
    && IsPoint(s, p.term, p.index)
    && (exists q :: IsQuorum(s.members, q) && AckedBy(s, q, p.term, p.index))
    && Shares(s.tlog[p.term], s.chosen, p.index)
  }

  ghost predicate InvCommits(s: State) {
    && (forall p {:trigger CommitOk(s, p)} :: p in s.commits ==> CommitOk(s, p))
    && (s.chosen != [] ==> ChosenBy(s))
  }

  ghost predicate ChosenBy(s: State) {
    exists p :: p in s.commits && p.index == |s.chosen|
  }

  ghost predicate Inv(s: State) {
    && InvDomains(s)
    && InvNodeLogs(s)
    && InvLeaderLogs(s)
    && InvNodeAcks(s)
    && InvVoteAcks(s)
    && InvComplete(s)
    && InvCommits(s)
  }

  // -------------------------------------------------------------- transitions

  function Init(members: set<NodeId>): State {
    State(members, map n | n in members :: 0, map n | n in members :: [],
          map[], map[], map[], map[], map[], map[], {}, [])
  }

  /** A Node learns of a later Term. */
  function RaiseTerm(s: State, n: NodeId, t: nat): State {
    s.(term := s.term[n := t])
  }

  predicate CanRaiseTerm(s: State, n: NodeId, t: nat) {
    n in s.term && s.term[n] < t
  }

  /** A Node stands in a later Term and votes for itself. */
  function Stand(s: State, n: NodeId, t: nat): State
    requires n in s.log
  {
    s.(term := s.term[n := t],
       voted := s.voted[Ballot(n, t) := n],
       cand := s.cand[Ballot(n, t) := s.log[n]])
  }

  predicate CanStand(s: State, n: NodeId, t: nat) {
    n in s.term && n in s.log && s.term[n] < t
  }

  /** A Node that has not voted in its Term votes for a Candidate. */
  function Vote(s: State, v: NodeId, c: NodeId, t: nat): State {
    s.(voted := s.voted[Ballot(v, t) := c])
  }

  predicate CanVote(s: State, v: NodeId, c: NodeId, t: nat) {
    && v in s.term && v in s.log && s.term[v] == t
    && Ballot(v, t) !in s.voted && Ballot(c, t) in s.cand
    && UpToDate(s.cand[Ballot(c, t)], s.log[v])
  }

  /** A Candidate with a majority of votes takes office and appends one entry. */
  function Elect(s: State, c: NodeId, t: nat, q: set<NodeId>, e: Entry): State
    requires c in s.log
  {
    s.(log := s.log[c := s.log[c] + [e]],
       tlog := s.tlog[t := s.log[c] + [e]],
       ldr := s.ldr[t := c],
       electors := s.electors[t := q])
  }

  predicate CanElect(s: State, c: NodeId, t: nat, q: set<NodeId>, e: Entry) {
    && c in s.term && c in s.log && s.term[c] == t
    && t !in s.tlog
    && Ballot(c, t) in s.cand && s.cand[Ballot(c, t)] == s.log[c]
    && IsQuorum(s.members, q) && (forall v {:trigger VotedFor(s, v, t, c)} :: v in q ==> VotedFor(s, v, t, c))
    && e.term == t && e.index == |s.log[c]| + 1
  }

  /** A Leader appends one entry of its own Term. */
  function Extend(s: State, c: NodeId, t: nat, e: Entry): State
    requires c in s.log && t in s.tlog
  {
    s.(log := s.log[c := s.log[c] + [e]], tlog := s.tlog[t := s.tlog[t] + [e]])
  }

  predicate CanExtend(s: State, c: NodeId, t: nat, e: Entry) {
    && c in s.term && c in s.log && s.term[c] == t
    && t in s.tlog && t in s.ldr && s.ldr[t] == c && s.log[c] == s.tlog[t]
    && e.term == t && e.index == |s.log[c]| + 1
  }

  /** A Node replaces its log by a prefix of its Leader's log, dropping nothing
      the two had in common. */
  function Accept(s: State, v: NodeId, t: nat, j: nat): State
    requires t in s.tlog && j <= |s.tlog[t]|
  {
    s.(log := s.log[v := s.tlog[t][..j]])
  }

  predicate CanAccept(s: State, v: NodeId, t: nat, j: nat) {
    && v in s.term && v in s.log && s.term[v] == t
    && t in s.tlog && j <= |s.tlog[t]|
    && !Shares(s.log[v], s.tlog[t], j + 1)
  }

  /** A Node acknowledges that it holds the first k entries of its Leader's log. */
  function Ack(s: State, v: NodeId, t: nat, k: nat): State {
    s.(acked := s.acked[Ballot(v, t) := Max(Acked(s, v, t), k)])
  }

  predicate CanAck(s: State, v: NodeId, t: nat, k: nat) {
    && v in s.term && v in s.log && s.term[v] == t
    && t in s.tlog && Shares(s.log[v], s.tlog[t], k)
  }

  /** An index of a Leader's own Term is committed by a majority of acknowledgements. */
  function Commit(s: State, t: nat, k: nat): State
    requires t in s.tlog && k <= |s.tlog[t]|
  {
    s.(commits := s.commits + {Point(t, k)},
       chosen := if k > |s.chosen| then s.tlog[t][..k] else s.chosen)
  }

  predicate CanCommit(s: State, t: nat, k: nat, q: set<NodeId>) {
    IsPoint(s, t, k) && IsQuorum(s.members, q) && AckedBy(s, q, t, k)
  }
}
