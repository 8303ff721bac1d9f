/** The election handlers keep the coupling: pre-votes, votes and taking office. */
module Elections {
  import opened Types
  import opened Messages
  import opened Quorums
  import opened Node
  import opened Cluster
  import opened Protocol
  import opened ProtocolProofs
  import opened Coupling
  import opened Stability
  import opened Framing
  import opened Effects
  import Sessions

  /** What a handler has to establish for the Node that ran it. */
  ghost predicate Done(g: Ghost, g': Ghost, asked: map<ReadKey, nat>, limit: int, id: NodeId, image: Sessions.Machine, r: StepResult) {
    && Inv(g'.p) && GhostEvolves(g, g', id) && g'.asks == g.asks
    && NodeView(g', asked, id, r.node)
    && ActionsOk(g', limit, id, image, r.actions)
  }

  ghost predicate Ready(g: Ghost, asked: map<ReadKey, nat>, id: NodeId, n: Node) {
    Inv(g.p) && NodeView(g, asked, id, n)
  }

  lemma GhostSame(g: Ghost, id: NodeId)
    ensures GhostEvolves(g, g, id)
  {
    forall v: NodeId, t: nat ensures Acked(g.p, v, t) == Acked(g.p, v, t) {}
  }

  lemma GhostTrans(g: Ghost, g1: Ghost, g2: Ghost, id: NodeId)
    requires GhostEvolves(g, g1, id) && GhostEvolves(g1, g2, id)
    ensures GhostEvolves(g, g2, id)
  {
    hide Evolves;
    EvolvesTrans(g.p, g1.p, g2.p, id);
  }

  /** A Node that neither stands, leads nor holds reads owes only its log and commit. */
  lemma QuietView(g: Ghost, asked: map<ReadKey, nat>, id: NodeId, n: Node)
    requires LogView(g.p, id, n) && CommitView(g.p, id, n)
    requires n.role != Leader && n.role != Candidate && n.waiting == map[]
    ensures NodeView(g, asked, id, n)
  {
  }

  lemma CommitMoved(s: State, s': State, id: NodeId, n: Node, n': Node)
    requires Grows(s, s') && CommitView(s, id, n) && id in s'.log && s.log[id] <= s'.log[id]
    requires n'.base == n.base && n'.lastApplied == n.lastApplied && n'.commit == n.commit && n.term <= n'.term
    ensures CommitView(s', id, n')
  {
    SettledStable(s, s', n.term, n'.term, s.log[id], s'.log[id], n.commit);
  }

  lemma BroadcastOk(g: Ghost, limit: int, id: NodeId, n: Node, image: Sessions.Machine, peers: seq<NodeId>, m: Message)
    requires LogView(g.p, id, n) && (forall p :: p in peers ==> p in n.peers)
    requires m.PreVoteRequest? || (m.VoteRequest? && VoteRequestView(g.p, id, m.term, m.lastIndex, m.lastTerm))
    ensures ActionsOk(g, limit, id, image, Broadcast(peers, m))
  {
    if peers != [] {
      PeerMember(g.p, id, n, peers[0]);
      OneAction(g, limit, id, image, Send(peers[0], m));
      BroadcastOk(g, limit, id, n, image, peers[1..], m);
      ActionsConcat(g, limit, id, image, [Send(peers[0], m)], Broadcast(peers[1..], m));
    }
  }

  lemma ShowOk(g: Ghost, limit: int, id: NodeId, image: Sessions.Machine, a: Action)
    requires !a.Send? && !a.ApplyEntry? && !a.BecameLeader?
    ensures ActionsOk(g, limit, id, image, [a])
  {
  }

  // ------------------------------------------------------------- later Terms

  lemma BecomeFollowerOk(g: Ghost, asked: map<ReadKey, nat>, id: NodeId, n: Node, term: nat, leader: NodeId) returns (g': Ghost)
    requires Ready(g, asked, id, n) && n.term < term
    ensures Inv(g'.p) && GhostEvolves(g, g', id) && g' == g.(p := RaiseTerm(g.p, id, term))
    ensures NodeView(g', asked, id, BecomeFollower(n, term, leader))
  {
    var n' := BecomeFollower(n, term, leader);
    assert Ballot(id, term) in g.p.voted ==> VoteOk(g.p, Ballot(id, term));
    assert Ballot(id, term) !in g.p.voted;
    hide Inv, Frame, Promises, CommitView, LeaderView, CandidateView, ReadsView, IsPeerList;
    g' := g.(p := RaiseTerm(g.p, id, term));
    RaiseTermEvolves(g.p, id, term);
    CommitMoved(g.p, g'.p, id, n, n');
    QuietView(g', asked, id, n');
  }

  lemma StepDownOk(g: Ghost, asked: map<ReadKey, nat>, limit: int, id: NodeId, n: Node, image: Sessions.Machine, term: nat) returns (g': Ghost)
    requires Ready(g, asked, id, n) && n.term < term
    ensures Done(g, g', asked, limit, id, image, StepDown(n, term))
  {
    hide Inv, GhostEvolves, NodeView, ActionsOk;
    g' := BecomeFollowerOk(g, asked, id, n, term, "");
    NoActions(g', limit, id, image);
  }

  lemma CheckQuorumOk(g: Ghost, asked: map<ReadKey, nat>, limit: int, id: NodeId, n: Node, image: Sessions.Machine)
    requires Ready(g, asked, id, n)
    ensures Done(g, g, asked, limit, id, image, OnCheckQuorum(n))
  {
    hide Inv, GhostEvolves;
    GhostSame(g, id);
    var r := OnCheckQuorum(n);
    if n.role == Leader {
      if |n.activePeers| + 1 < Quorum(n) {
        QuietView(g, asked, id, r.node);
      } else {
        ContactKept(g, asked, id, n);
      }
    }
  }

  lemma ContactKept(g: Ghost, asked: map<ReadKey, nat>, id: NodeId, n: Node)
    requires NodeView(g, asked, id, n) && n.role == Leader
    ensures NodeView(g, asked, id, n.(activePeers := {}))
  {
    var n' := n.(activePeers := {});
    forall p | p in n.peers ensures PeerView(g.p, n', p) { assert PeerView(g.p, n, p); }
    forall q | q in n.waiting ensures ReadView(g, asked, id, n', q) { assert ReadView(g, asked, id, n, q); }
  }

  // --------------------------------------------------------------- candidacy

  lemma StandsOk(g: Ghost, asked: map<ReadKey, nat>, id: NodeId, n: Node) returns (g': Ghost)
    requires Ready(g, asked, id, n) && n.role != Leader
    ensures Inv(g'.p) && GhostEvolves(g, g', id) && g'.asks == g.asks
    ensures NodeView(g', asked, id, StartElection(n).node)
    ensures VoteRequestView(g'.p, id, n.term + 1, LastIndex(n), LastTerm(n))
  {
    hide Inv, Frame, Promises, CandidateView;
    var n' := StartElection(n).node;
    var t := n.term + 1;
    g' := g.(p := Stand(g.p, id, t));
    StandEvolves(g.p, id, t);
    CommitMoved(g.p, g'.p, id, n, n');
    StandCandidate(g.p, id, n, n');
    LastTermIs(g.p, id, n);
  }

  lemma StandCandidate(s: State, id: NodeId, n: Node, n': Node)
    requires Inv(s) && LogView(s, id, n) && n' == StartElection(n).node
    ensures var s' := Stand(s, id, n'.term); CandidateView(s', id, n') && LogView(s', id, n')
  {
    var s' := Stand(s, id, n'.term);
    assert Ballot(id, n'.term) in s.cand ==> CandOk(s, Ballot(id, n'.term));
    assert n'.term in s.tlog ==> LeaderLogOk(s, n'.term);
    assert VotedFor(s', id, n'.term, id);
  }

  lemma StartElectionOk(g: Ghost, asked: map<ReadKey, nat>, limit: int, id: NodeId, n: Node, image: Sessions.Machine) returns (g': Ghost)
    requires Ready(g, asked, id, n) && n.role != Leader
    ensures Done(g, g', asked, limit, id, image, StartElection(n))
  {
    hide Inv, GhostEvolves, ActionsOk;
    var r := StartElection(n);
    g' := StandsOk(g, asked, id, n);
    var m := VoteRequest(n.term + 1, LastIndex(n), LastTerm(n));
    BroadcastOk(g', limit, id, r.node, image, n.peers, m);
    ShowOk(g', limit, id, image, ResetElectionTimer);
    ActionsConcat(g', limit, id, image, [ResetElectionTimer], Broadcast(n.peers, m));
  }

  /** Asking for pre-votes. */
  lemma AskPreVotes(g: Ghost, limit: int, id: NodeId, n: Node, image: Sessions.Machine, m: Message)
    requires LogView(g.p, id, n) && m.PreVoteRequest?
    ensures ActionsOk(g, limit, id, image, [ResetElectionTimer] + Broadcast(n.peers, m))
  {
    hide PacketView;
    BroadcastOk(g, limit, id, n, image, n.peers, m);
    ShowOk(g, limit, id, image, ResetElectionTimer);
    ActionsConcat(g, limit, id, image, [ResetElectionTimer], Broadcast(n.peers, m));
  }

  lemma ElectionTimeoutOk(g: Ghost, asked: map<ReadKey, nat>, limit: int, id: NodeId, n: Node, image: Sessions.Machine) returns (g': Ghost)
    requires Ready(g, asked, id, n)
    ensures Done(g, g', asked, limit, id, image, OnElectionTimeout(n))
  {
    hide Inv, GhostEvolves, ActionsOk;
    g' := g;
    GhostSame(g, id);
    if n.role == Leader {
      NoActions(g, limit, id, image);
    } else {
      var n' := n.(recentContact := false, leaderId := "", role := PreCandidate, preVotes := {n.id});
      QuietView(g, asked, id, n');
      var m := PreVoteRequest(n.term + 1, LastIndex(n), LastTerm(n));
      if Quorum(n) == 1 {
        g' := StartElectionOk(g, asked, limit, id, n', image);
        AskPreVotes(g', limit, id, StartElection(n').node, image, m);
        ActionsConcat(g', limit, id, image, [ResetElectionTimer] + Broadcast(n.peers, m), StartElection(n').actions);
      } else {
        AskPreVotes(g, limit, id, n', image, m);
      }
    }
  }

  lemma PreVoteRequestOk(g: Ghost, asked: map<ReadKey, nat>, limit: int, id: NodeId, n: Node, image: Sessions.Machine, from: NodeId, m: Message)
    requires Ready(g, asked, id, n) && m.PreVoteRequest? && from in g.p.members && from != id
    ensures Done(g, g, asked, limit, id, image, OnPreVoteRequest(n, from, m))
  {
    hide Inv, GhostEvolves;
    GhostSame(g, id);
    OneAction(g, limit, id, image, OnPreVoteRequest(n, from, m).actions[0]);
  }

  lemma PreVoteReplyOk(g: Ghost, asked: map<ReadKey, nat>, limit: int, id: NodeId, n: Node, image: Sessions.Machine, from: NodeId, m: Message) returns (g': Ghost)
    requires Ready(g, asked, id, n) && m.PreVoteReply?
    ensures Done(g, g', asked, limit, id, image, OnPreVoteReply(n, from, m))
  {
    hide Inv, GhostEvolves, ActionsOk;
    g' := g;
    GhostSame(g, id);
    NoActions(g, limit, id, image);
    if m.currentTerm > n.term {
      g' := StepDownOk(g, asked, limit, id, n, image, m.currentTerm);
    } else if n.role == PreCandidate && m.term == n.term + 1 && m.granted {
      var n' := n.(preVotes := n.preVotes + {from});
      QuietView(g, asked, id, n');
      if |n'.preVotes| >= Quorum(n') {
        g' := StartElectionOk(g, asked, limit, id, n', image);
      }
    }
  }

  // ------------------------------------------------------------------- voting

  lemma UpToDateIs(s: State, id: NodeId, n: Node, from: NodeId, m: Message)
    requires LogView(s, id, n) && m.VoteRequest? && VoteRequestView(s, from, m.term, m.lastIndex, m.lastTerm)
    ensures LogIsUpToDate(m.lastTerm, m.lastIndex, LastTerm(n), LastIndex(n)) ==> UpToDate(s.cand[Ballot(from, m.term)], s.log[id])
  {
    LastTermIs(s, id, n);
  }

  /** Granting a vote in the Node's own Term. */
  lemma GrantOk(g: Ghost, asked: map<ReadKey, nat>, id: NodeId, n: Node, from: NodeId, m: Message) returns (g': Ghost)
    requires Ready(g, asked, id, n) && m.VoteRequest? && m.term == n.term && from != "" && from != id
    requires VoteRequestView(g.p, from, m.term, m.lastIndex, m.lastTerm)
    requires n.votedFor == "" || n.votedFor == from
    requires LogIsUpToDate(m.lastTerm, m.lastIndex, LastTerm(n), LastIndex(n))
    ensures Inv(g'.p) && GhostEvolves(g, g', id) && g'.asks == g.asks && g'.p.members == g.p.members
    ensures NodeView(g', asked, id, n.(votedFor := from)) && VotedFor(g'.p, id, n.term, from)
  {
    g' := g;
    GhostSame(g, id);
    if n.votedFor == "" {
      assert Ballot(id, n.term) !in g.p.voted by { VoterNamed(g.p, id, n.term); }
      UpToDateIs(g.p, id, n, from, m);
      g' := g.(p := Vote(g.p, id, from, n.term));
      VoteEvolves(g.p, id, from, n.term);
      var n' := n.(votedFor := from);
      CommitMoved(g.p, g'.p, id, n, n');
      assert n.role == Candidate ==> CandOk(g.p, Ballot(id, n.term));
      assert n.role == Leader ==> CandOk(g.p, Ballot(id, n.term));
      QuietView(g', asked, id, n');
    } else {
      assert n.(votedFor := from) == n;
    }
  }

  /** Every recorded vote names a Node. */
  lemma VoterNamed(s: State, v: NodeId, t: nat)
    requires Inv(s)
    ensures Ballot(v, t) in s.voted ==> s.voted[Ballot(v, t)] != ""
  {
    if Ballot(v, t) in s.voted {
      assert VoteOk(s, Ballot(v, t));
      assert CandOk(s, Ballot(s.voted[Ballot(v, t)], t));
    }
  }

  lemma ReplyVote(g: Ghost, limit: int, id: NodeId, image: Sessions.Machine, to: NodeId, term: nat, granted: bool)
    requires id in g.p.members && to in g.p.members && to != id && (granted ==> VotedFor(g.p, id, term, to))
    ensures ActionsOk(g, limit, id, image, [Send(to, VoteReply(term, granted))])
  {
    assert ActionOk(g, limit, id, image, Send(to, VoteReply(term, granted)));
  }

  /** The decision a Node takes once it is in the request's Term. */
  lemma DecideVote(g: Ghost, asked: map<ReadKey, nat>, limit: int, id: NodeId, n: Node, image: Sessions.Machine, from: NodeId, m: Message) returns (g': Ghost)
    requires Ready(g, asked, id, n) && m.VoteRequest? && from in g.p.members && from != id && from != "" && m.term == n.term
    requires id in g.p.members && VoteRequestView(g.p, from, m.term, m.lastIndex, m.lastTerm)
    ensures Inv(g'.p) && GhostEvolves(g, g', id) && g'.asks == g.asks
    ensures NodeView(g', asked, id, OnVoteRequest(n, from, m).node)
    ensures ActionsOk(g', limit, id, image, OnVoteRequest(n, from, m).actions)
  {
    hide Inv, GhostEvolves, NodeView, ActionsOk, VoteRequestView, VotedFor;
    var grant := (n.votedFor == "" || n.votedFor == from) && LogIsUpToDate(m.lastTerm, m.lastIndex, LastTerm(n), LastIndex(n));
    if grant {
      g' := GrantOk(g, asked, id, n, from, m);
    } else {
      g' := g;
      GhostSame(g, id);
    }
    ReplyVote(g', limit, id, image, from, n.term, grant);
  }

  lemma RefusedVote(n: Node, from: NodeId, m: Message)
    requires m.VoteRequest? && m.term < n.term
    ensures OnVoteRequest(n, from, m) == StepResult(n, [], [Send(from, VoteReply(n.term, false))])
  {
  }

  /** A vote in a later Term is decided as by a Follower of that Term. */
  lemma RaisedVote(n: Node, from: NodeId, m: Message)
    requires m.VoteRequest? && m.term > n.term
    ensures var b := BecomeFollower(n, m.term, "");
            var r, q := OnVoteRequest(n, from, m), OnVoteRequest(b, from, m);
            b.term == m.term && r.node == q.node && r.actions == q.actions
  {
  }

  lemma SameVoteRequest(g: Ghost, g': Ghost, id: NodeId, from: NodeId, m: Message)
    requires m.VoteRequest? && GhostEvolves(g, g', id) && VoteRequestView(g.p, from, m.term, m.lastIndex, m.lastTerm)
    ensures VoteRequestView(g'.p, from, m.term, m.lastIndex, m.lastTerm) && g'.p.members == g.p.members
  {
  }

  lemma VoteRequestOk(g: Ghost, asked: map<ReadKey, nat>, limit: int, id: NodeId, n: Node, image: Sessions.Machine, from: NodeId, m: Message) returns (g': Ghost)
    requires Ready(g, asked, id, n) && m.VoteRequest? && from in g.p.members && from != id
    requires VoteRequestView(g.p, from, m.term, m.lastIndex, m.lastTerm)
    ensures Done(g, g', asked, limit, id, image, OnVoteRequest(n, from, m))
  {
    assert from != "" && id in g.p.members;
    hide Inv, GhostEvolves, NodeView, ActionsOk, OnVoteRequest, BecomeFollower, VoteRequestView;
    if m.term < n.term {
      RefusedVote(n, from, m);
      g' := g;
      GhostSame(g, id);
      ReplyVote(g, limit, id, image, from, n.term, false);
    } else if m.term == n.term {
      g' := DecideVote(g, asked, limit, id, n, image, from, m);
    } else {
      var g1 := BecomeFollowerOk(g, asked, id, n, m.term, "");
      RaisedVote(n, from, m);
      SameVoteRequest(g, g1, id, from, m);
      g' := DecideVote(g1, asked, limit, id, BecomeFollower(n, m.term, ""), image, from, m);
      GhostTrans(g, g1, g', id);
    }
  }

  // ------------------------------------------------------------- taking office

  /** The votes a Candidate collected are a majority of the members. */
  lemma VotesAreQuorum(s: State, id: NodeId, n: Node, votes: set<NodeId>)
    requires LogView(s, id, n) && votes <= s.members && |votes| >= Quorum(n)
    ensures IsQuorum(s.members, votes)
  {
    MembersCount(s.members, id, n.peers);
  }

  lemma MembersCount(members: set<NodeId>, id: NodeId, peers: seq<NodeId>)
    requires IsPeerList(members, id, peers) && id in members
    ensures |members| == |peers| + 1
  {
    DistinctCount(peers);
    assert members == PeerSet(peers) + {id};
  }

  lemma DistinctCount(peers: seq<NodeId>)
    requires forall i, j :: 0 <= i < j < |peers| ==> peers[i] != peers[j]
    ensures |PeerSet(peers)| == |peers|
  {
    if peers != [] {
      var k := |peers| - 1;
      DistinctCount(peers[..k]);
      assert PeerSet(peers) == PeerSet(peers[..k]) + {peers[k]};
      assert peers[k] !in PeerSet(peers[..k]);
    }
  }

  /** The Node as a Candidate becomes Leader, before its first requests. */
  function InOffice(n: Node, from: NodeId): Node {
    Officer(n.(votes := n.votes + {from}))
  }

  lemma CanTakeOffice(s: State, id: NodeId, n: Node, from: NodeId)
    requires Inv(s) && LogView(s, id, n) && CandidateView(s, id, n) && n.role == Candidate && from in s.members
    requires VotedFor(s, from, n.term, id) && |n.votes + {from}| >= Quorum(n)
    ensures CanElect(s, id, n.term, n.votes + {from}, FirstEntry(n))
  {
    var q, t := n.votes + {from}, n.term;
    VotesAreQuorum(s, id, n, q);
    forall v | v in q ensures VotedFor(s, v, t, id) {}
    if t in s.tlog { OneLeaderPerTerm(s, t, id, q); }
    LastTermIs(s, id, n);
  }

  /** The history once the Candidate has taken office and counted itself. */
  function Elected(s: State, id: NodeId, n: Node, from: NodeId): State
    requires id in s.log
  {
    Ack(Elect(s, id, n.term, n.votes + {from}, FirstEntry(n)), id, n.term, |s.log[id]| + 1)
  }

  lemma ElectedEvolves(s: State, id: NodeId, n: Node, from: NodeId)
    requires Inv(s) && id in s.log && CanElect(s, id, n.term, n.votes + {from}, FirstEntry(n))
    ensures Inv(Elected(s, id, n, from)) && Evolves(s, Elected(s, id, n, from), id)
  {
    hide Inv, Evolves;
    var q, t, e := n.votes + {from}, n.term, FirstEntry(n);
    ElectEvolves(s, id, t, q, e);
    var s1 := Elect(s, id, t, q, e);
    AckEvolves(s1, id, t, |s.log[id]| + 1);
    EvolvesTrans(s, s1, Elected(s, id, n, from), id);
  }

  lemma TakeOffice(g: Ghost, asked: map<ReadKey, nat>, id: NodeId, n: Node, from: NodeId) returns (g': Ghost)
    requires Ready(g, asked, id, n) && n.role == Candidate && from in g.p.members
    requires VotedFor(g.p, from, n.term, id) && |n.votes + {from}| >= Quorum(n)
    ensures Inv(g'.p) && GhostEvolves(g, g', id) && g'.asks == g.asks
    ensures NodeView(g', asked, id, InOffice(n, from))
    ensures g'.p.log[id] == g.p.log[id] + [FirstEntry(n)]
  {
    hide Inv, Frame, Promises, CanElect;
    var s, n' := g.p, InOffice(n, from);
    CanTakeOffice(s, id, n, from);
    ElectedEvolves(s, id, n, from);
    g' := g.(p := Elected(s, id, n, from));
    CommitMoved(s, g'.p, id, n, n');
    NewLeaderView(s, id, n, from);
  }

  /** Before its election nothing in a Term was acknowledged. */
  lemma OwnAck(s: State, v: NodeId, t: nat)
    requires Inv(s) && t !in s.tlog
    ensures Acked(s, v, t) == 0
  {
    assert Ballot(v, t) in s.acked ==> AckOk(s, Ballot(v, t));
  }

  lemma NewLeaderView(s: State, id: NodeId, n: Node, from: NodeId)
    requires Inv(s) && LogView(s, id, n) && n.role == Candidate && CandidateView(s, id, n)
    requires CanElect(s, id, n.term, n.votes + {from}, FirstEntry(n))
    ensures var s' := Elected(s, id, n, from); LogView(s', id, InOffice(n, from)) && LeaderView(s', id, InOffice(n, from))
  {
    var s', n' := Elected(s, id, n, from), InOffice(n, from);
    OwnAck(s, id, n.term);
    forall p | p in s.commits ensures p.term != n'.term { assert CommitOk(s, p); }
    hide Inv, CanElect, InvDomains;
    assert s'.log[id] == s.log[id] + [FirstEntry(n)] && s'.tlog[n.term] == s'.log[id];
    forall p | p in n'.peers ensures PeerView(s', n', p) {
      PeerMember(s, id, n, p);
      assert Above(s', p, n.term, LastIndex(n) + 2);
    }
  }

  /** The first requests of a new Leader. */
  lemma OfficeActions(g: Ghost, asked: map<ReadKey, nat>, limit: int, id: NodeId, n: Node, image: Sessions.Machine)
    requires LeaderReady(g, asked, limit, id, n, image)
    ensures var sent := SendAll(n, n.peers, 0);
            && NodeView(g, asked, id, sent.node)
            && ActionsOk(g, limit, id, image, [BecameLeader(n.term), ResetHeartbeatTimer, ResetCheckQuorumTimer] + sent.actions)
  {
    var intro := [BecameLeader(n.term), ResetHeartbeatTimer, ResetCheckQuorumTimer];
    forall a | a in intro ensures ActionOk(g, limit, id, image, a) {}
    hide Inv, ActionsOk, NodeView;
    assert ActionsOk(g, limit, id, image, intro) by { ThreeActions(g, limit, id, image, intro[0], intro[1], intro[2]); }
    SendAllOk(g, asked, limit, id, n, image, n.peers, 0);
    ActionsConcat(g, limit, id, image, intro, SendAll(n, n.peers, 0).actions);
  }

  lemma ThreeActions(g: Ghost, limit: int, id: NodeId, image: Sessions.Machine, a: Action, b: Action, c: Action)
    requires ActionOk(g, limit, id, image, a) && ActionOk(g, limit, id, image, b) && ActionOk(g, limit, id, image, c)
    ensures ActionsOk(g, limit, id, image, [a, b, c])
  {
    hide ActionOk;
  }

  lemma VoteReplyOk(g: Ghost, asked: map<ReadKey, nat>, limit: int, id: NodeId, n: Node, image: Sessions.Machine, from: NodeId, m: Message) returns (g': Ghost)
    requires Ready(g, asked, id, n) && m.VoteReply? && from in g.p.members && ImageOk(g.p, limit, id, n, image)
    requires m.granted ==> VotedFor(g.p, from, m.term, id)
    ensures Done(g, g', asked, limit, id, image, OnVoteReply(n, from, m))
  {
    hide Inv, GhostEvolves, ActionsOk, ImageOk;
    g' := g;
    GhostSame(g, id);
    NoActions(g, limit, id, image);
    if m.term > n.term {
      g' := StepDownOk(g, asked, limit, id, n, image, m.term);
    } else if n.role == Candidate && m.term == n.term && m.granted {
      if |n.votes + {from}| < Quorum(n) {
        CountVote(g, asked, id, n, from);
      } else {
        g' := TakeOffice(g, asked, id, n, from);
        OfficeImage(g.p, g'.p, limit, id, n, InOffice(n, from), image);
        OfficeActions(g', asked, limit, id, InOffice(n, from), image);
      }
    }
  }

  lemma OfficeImage(s: State, s': State, limit: int, id: NodeId, n: Node, n': Node, image: Sessions.Machine)
    requires ImageOk(s, limit, id, n, image) && id in s'.log && n'.base == n.base && s.log[id] <= s'.log[id]
    ensures ImageOk(s', limit, id, n', image)
  {
    assert s'.log[id][..n.base] == s.log[id][..n.base];
  }

  lemma CountVote(g: Ghost, asked: map<ReadKey, nat>, id: NodeId, n: Node, from: NodeId)
    requires Ready(g, asked, id, n) && n.role == Candidate && from in g.p.members && VotedFor(g.p, from, n.term, id)
    ensures NodeView(g, asked, id, n.(votes := n.votes + {from}))
  {
    hide Inv;
  }
}
