/** Every protocol transition keeps Protocol.Inv, and what Inv gives a reader. */
module ProtocolProofs {
  import opened Types
  import opened Quorums
  import opened Protocol

  // ------------------------------------------------------------- log algebra

  /** Two anchored logs that agree on the Term at one index agree up to it. */
  lemma LogMatching(s: State, a: seq<Entry>, b: seq<Entry>, k: nat)
    requires Anchored(s, a) && Anchored(s, b)
    requires 0 < k <= |a| && k <= |b| && a[k - 1].term == b[k - 1].term
    ensures Shares(a, b, k)
  {
    assert AnchoredAt(s, a, k - 1) && AnchoredAt(s, b, k - 1);
  }

  /** Terms never decrease along an anchored log. */
  lemma TermsMonotone(s: State, l: seq<Entry>, i: nat, j: nat)
    requires InvLeaderLogs(s) && Anchored(s, l)
    requires i <= j < |l|
    ensures l[i].term <= l[j].term
  {
    assert AnchoredAt(s, l, j);
    var t := l[j].term;
    assert LeaderLogOk(s, t);
    assert l[i] == l[..j + 1][i] == s.tlog[t][..j + 1][i];
  }

  /** Sharing a prefix is transitive. */
  lemma SharesTrans(a: seq<Entry>, b: seq<Entry>, c: seq<Entry>, n: nat)
    requires Shares(a, b, n) && Shares(b, c, n)
    ensures Shares(a, c, n)
  {
  }

  lemma SharesLess(a: seq<Entry>, b: seq<Entry>, m: nat, n: nat)
    requires Shares(a, b, n) && m <= n
    ensures Shares(a, b, m)
  {
    assert a[..m] == a[..n][..m];
    assert b[..m] == b[..n][..m];
  }

  // --------------------------------------------------- growth of the history

  /** Histories only grow: nothing recorded is ever changed or forgotten. */
  ghost predicate Grows(s: State, s': State) {
    && s'.members == s.members
    && (forall v :: v in s.term ==> v in s'.term && s.term[v] <= s'.term[v])
    && (forall b :: b in s.voted ==> b in s'.voted && s'.voted[b] == s.voted[b])
    && (forall b :: b in s.cand ==> b in s'.cand && s'.cand[b] == s.cand[b])
    && (forall t :: t in s.tlog ==> t in s'.tlog && s.tlog[t] <= s'.tlog[t])
    && (forall t :: t in s.ldr ==> t in s'.ldr && s'.ldr[t] == s.ldr[t])
    && (forall t :: t in s.electors ==> t in s'.electors && s'.electors[t] == s.electors[t])
    && (forall v, t :: Acked(s, v, t) <= Acked(s', v, t))
    && (forall v, t :: v in s.term && t < s.term[v] ==> Acked(s', v, t) == Acked(s, v, t))
    && s.commits <= s'.commits
    && s.chosen <= s'.chosen
  }

  lemma BlockedStable(s: State, s': State, t: nat, k: nat)
    requires Grows(s, s') && Blocked(s, t, k)
    ensures Blocked(s', t, k)
  {
    var q :| IsQuorum(s.members, q) && BlockedBy(s, q, t, k);
    assert BlockedBy(s', q, t, k);
  }

  lemma AnchoredStable(s: State, s': State, l: seq<Entry>)
    requires Grows(s, s') && Anchored(s, l)
    ensures Anchored(s', l)
  {
    forall i | 0 <= i < |l| ensures AnchoredAt(s', l, i) {
      assert AnchoredAt(s, l, i);
    }
  }

  // ------------------------------------------- what an acknowledgement is worth

  /** An index a majority acknowledged is never blocked. */
  lemma AckedNotBlocked(s: State, t: nat, k: nat, q: set<NodeId>)
    requires IsQuorum(s.members, q) && AckedBy(s, q, t, k)
    ensures !Blocked(s, t, k)
  {
    if Blocked(s, t, k) {
      var b :| IsQuorum(s.members, b) && BlockedBy(s, b, t, k);
      var v := QuorumsIntersect(s.members, q, b);
      assert false;
    }
  }

  /** A Node elected to vote for a later Term keeps an earlier new index blocked. */
  lemma LaterElectionBlocks(s: State, s': State, later: nat, t: nat, k: nat)
    requires InvDomains(s) && InvLeaderLogs(s) && Grows(s, s')
    requires later in s.tlog && t < later
    requires t in s.tlog ==> |s.tlog[t]| < k
    requires 0 < k
    ensures Blocked(s', t, k)
  {
    assert LeaderLogOk(s, later);
    var q := s.electors[later];
    forall v | v in q ensures v in s.term && t < s.term[v] && Acked(s, v, t) < k {
      assert VotedFor(s, v, later, s.ldr[later]);
      assert VoteOk(s, Ballot(v, later));
      if Ballot(v, t) in s.acked { assert AckOk(s, Ballot(v, t)); }
    }
    assert BlockedBy(s, q, t, k);
    BlockedStable(s, s', t, k);
  }

  /** Section 5.4.1: a Candidate at least as up to date as a voter holds every
      index the voter holds from an earlier Leader, unless that index is blocked. */
  lemma UpToDateHolds(s: State, c: seq<Entry>, l: seq<Entry>, t: nat, k: nat)
    requires InvDomains(s) && InvLeaderLogs(s) && InvComplete(s)
    requires Anchored(s, c) && Anchored(s, l) && UpToDate(c, l)
    requires IsPoint(s, t, k) && Shares(l, s.tlog[t], k)
    ensures Shares(c, s.tlog[t], k) || Blocked(s, t, k)
  {
    assert l[k - 1] == l[..k][k - 1] == s.tlog[t][..k][k - 1] == s.tlog[t][k - 1];
    TermsMonotone(s, l, k - 1, |l| - 1);
    var ct, lt := TermOf(c, |c|), TermOf(l, |l|);
    assert t <= lt <= ct;
    assert LeaderLogOk(s, t) && CandOk(s, Ballot(s.ldr[t], t));
    assert AnchoredAt(s, c, |c| - 1) && LeaderLogOk(s, ct);
    if ct == lt {
      assert AnchoredAt(s, l, |l| - 1);
      SharesLess(c, s.tlog[ct], k, |c|);
      SharesLess(l, s.tlog[ct], k, |l|);
    } else {
      assert CompleteOk(s, ct, t, k);
      if Shares(s.tlog[ct], s.tlog[t], k) {
        assert s.tlog[ct][k - 1] == s.tlog[ct][..k][k - 1] == s.tlog[t][..k][k - 1];
        assert k <= |c|;
        SharesLess(c, s.tlog[ct], k, |c|);
      }
    }
  }

  // ----------------------------------------------- what every transition keeps

  /** Facts about recorded votes, stands, acknowledgements and commits survive growth. */
  lemma RecordsStable(s: State, s': State)
    requires InvDomains(s) && Grows(s, s')
    ensures forall b {:trigger VoteOk(s', b)} :: b in s.voted ==> VoteOk(s', b)
    ensures forall b {:trigger CandOk(s', b)} :: b in s.cand ==> CandOk(s', b)
  {
    forall b | b in s.voted ensures VoteOk(s', b) { assert VoteOk(s, b); }
    forall b | b in s.cand ensures CandOk(s', b) {
      assert CandOk(s, b);
      AnchoredStable(s, s', s.cand[b]);
    }
  }

  lemma AcksStable(s: State, s': State)
    requires InvDomains(s) && Grows(s, s') && s'.acked == s.acked
    ensures forall b {:trigger AckOk(s', b)} :: b in s.acked ==> AckOk(s', b)
  {
    forall b | b in s.acked ensures AckOk(s', b) { assert AckOk(s, b); }
  }

  lemma NodeLogStable(s: State, s': State, n: NodeId)
    requires NodeLogOk(s, n) && Grows(s, s') && n in s'.log && s'.log[n] == s.log[n]
    ensures NodeLogOk(s', n)
  {
    AnchoredStable(s, s', s.log[n]);
  }

  lemma LeaderLogStable(s: State, s': State, t: nat)
    requires LeaderLogOk(s, t) && Grows(s, s') && s'.tlog[t] == s.tlog[t]
    ensures LeaderLogOk(s', t)
  {
    AnchoredStable(s, s', s.tlog[t]);
    forall v | v in s'.electors[t] ensures VotedFor(s', v, t, s'.ldr[t]) {
      assert VotedFor(s, v, t, s.ldr[t]);
    }
  }

  lemma CommitsStable(s: State, s': State)
    requires InvCommits(s) && Grows(s, s') && s'.commits == s.commits && s'.chosen == s.chosen
    ensures InvCommits(s')
  {
    forall p | p in s'.commits ensures CommitOk(s', p) {
      assert CommitOk(s, p);
      var q :| IsQuorum(s.members, q) && AckedBy(s, q, p.term, p.index);
      assert AckedBy(s', q, p.term, p.index);
      assert s.tlog[p.term][..p.index] == s'.tlog[p.term][..p.index];
    }
  }

  /** Old indices keep their standing: a prefix shared stays shared, a block stays. */
  lemma CompleteStable(s: State, s': State, later: nat, t: nat, k: nat)
    requires Grows(s, s') && CompleteOk(s, later, t, k)
    requires later in s.tlog && IsPoint(s, t, k)
    ensures CompleteOk(s', later, t, k)
  {
    if t < later {
      if Blocked(s, t, k) {
        BlockedStable(s, s', t, k);
      } else {
        assert s'.tlog[later][..k] == s.tlog[later][..k];
        assert s'.tlog[t][..k] == s.tlog[t][..k];
      }
    }
  }

  lemma VoteAckStable(s: State, s': State, b: Ballot, t: nat, k: nat)
    requires Grows(s, s') && VoteAckOk(s, b, t, k)
    requires b in s.voted && VoteOk(s, b) && IsPoint(s, t, k)
    ensures VoteAckOk(s', b, t, k)
  {
    if t < b.term && k <= Acked(s', b.node, t) {
      assert Acked(s', b.node, t) == Acked(s, b.node, t);
      if Blocked(s, t, k) {
        BlockedStable(s, s', t, k);
      } else {
        assert s'.tlog[t][..k] == s.tlog[t][..k];
      }
    }
  }

  lemma NodeAckStable(s: State, s': State, v: NodeId, t: nat, k: nat)
    requires Grows(s, s') && NodeAckOk(s, v, t, k) && IsPoint(s, t, k)
    requires v in s.log && v in s'.log && s.log[v] <= s'.log[v] && Acked(s', v, t) == Acked(s, v, t)
    ensures NodeAckOk(s', v, t, k)
  {
    if k <= Acked(s, v, t) {
      if Blocked(s, t, k) {
        BlockedStable(s, s', t, k);
      } else {
        assert s'.tlog[t][..k] == s.tlog[t][..k];
        assert s'.log[v][..k] == s.log[v][..k];
      }
    }
  }

  // ------------------------------------------------------ the eight transitions

  lemma InitInv(members: set<NodeId>)
    requires "" !in members
    ensures Inv(Init(members))
  {
  }

  lemma RaiseTermInv(s: State, n: NodeId, t: nat)
    requires Inv(s) && CanRaiseTerm(s, n, t)
    ensures Inv(RaiseTerm(s, n, t)) && Grows(s, RaiseTerm(s, n, t))
  {
    var s' := RaiseTerm(s, n, t);
    assert Grows(s, s');
    DomainsStable(s, s');
    CommitsStable(s, s');
    NodeLogsStable(s, s');
    LeadersStable(s, s');
    VoteAcksStable(s, s');
    NodeAcksStable(s, s');
  }

  lemma DomainsStable(s: State, s': State)
    requires InvDomains(s) && Grows(s, s')
    requires s'.term.Keys == s.term.Keys && s'.log.Keys == s.log.Keys
    requires s'.tlog == s.tlog && s'.ldr == s.ldr && s'.electors == s.electors
    requires s'.voted == s.voted && s'.cand == s.cand && s'.acked == s.acked
    ensures InvDomains(s')
  {
    RecordsStable(s, s');
    AcksStable(s, s');
  }

  lemma NodeLogsStable(s: State, s': State)
    requires InvNodeLogs(s) && Grows(s, s') && s'.log == s.log
    ensures InvNodeLogs(s')
  {
    forall m | m in s'.members ensures NodeLogOk(s', m) {
      assert NodeLogOk(s, m);
      NodeLogStable(s, s', m);
    }
  }

  /** When no Leader log changes, completeness carries over. */
  lemma LeadersStable(s: State, s': State)
    requires InvLeaderLogs(s) && InvComplete(s) && Grows(s, s') && s'.tlog == s.tlog
    ensures InvLeaderLogs(s') && InvComplete(s')
  {
    forall t | t in s'.tlog ensures LeaderLogOk(s', t) {
      assert LeaderLogOk(s, t);
      LeaderLogStable(s, s', t);
    }
    forall later: nat, t: nat, k: nat ensures CompleteOk(s', later, t, k) {
      assert CompleteOk(s, later, t, k);
      if later in s.tlog && IsPoint(s, t, k) { CompleteStable(s, s', later, t, k); }
    }
  }

  lemma VoteAcksStable(s: State, s': State)
    requires InvDomains(s) && InvVoteAcks(s) && Grows(s, s') && s'.tlog == s.tlog && s'.voted == s.voted
    ensures InvVoteAcks(s')
  {
    forall b: Ballot, t: nat, k: nat ensures VoteAckOk(s', b, t, k) {
      assert VoteAckOk(s, b, t, k);
      if b in s.voted && IsPoint(s, t, k) {
        assert VoteOk(s, b);
        VoteAckStable(s, s', b, t, k);
      }
    }
  }

  lemma NodeAcksStable(s: State, s': State)
    requires InvNodeAcks(s) && Grows(s, s') && s'.tlog == s.tlog && s'.log == s.log && s'.acked == s.acked
    ensures InvNodeAcks(s')
  {
    forall v: NodeId, t: nat, k: nat ensures NodeAckOk(s', v, t, k) {
      assert NodeAckOk(s, v, t, k);
      if v in s.log && IsPoint(s, t, k) { NodeAckStable(s, s', v, t, k); }
    }
  }

  lemma StandGrows(s: State, n: NodeId, t: nat)
    requires InvDomains(s) && CanStand(s, n, t)
    ensures Grows(s, Stand(s, n, t)) && Ballot(n, t) !in s.voted && Ballot(n, t) !in s.cand
  {
    var b := Ballot(n, t);
    assert b in s.voted ==> VoteOk(s, b);
    assert b in s.cand ==> CandOk(s, b);
  }

  /** A self-vote counts for what the Candidate itself acknowledged. */
  lemma StandVoteAcks(s: State, n: NodeId, t: nat)
    requires InvDomains(s) && InvNodeAcks(s) && InvVoteAcks(s) && CanStand(s, n, t)
    requires Grows(s, Stand(s, n, t)) && Ballot(n, t) !in s.voted && Ballot(n, t) !in s.cand
    ensures InvVoteAcks(Stand(s, n, t))
  {
    var s' := Stand(s, n, t);
    forall c: Ballot, u: nat, k: nat ensures VoteAckOk(s', c, u, k) {
      if c == Ballot(n, t) {
        assert NodeAckOk(s, n, u, k);
        if Blocked(s, u, k) { BlockedStable(s, s', u, k); }
      } else if c in s.voted && IsPoint(s, u, k) {
        assert VoteOk(s, c) && VoteAckOk(s, c, u, k);
        VoteAckStable(s, s', c, u, k);
      }
    }
  }

  lemma StandInv(s: State, n: NodeId, t: nat)
    requires Inv(s) && CanStand(s, n, t)
    ensures Inv(Stand(s, n, t)) && Grows(s, Stand(s, n, t))
  {
    var s' := Stand(s, n, t);
    StandGrows(s, n, t);
    StandVoteAcks(s, n, t);
    RecordsStable(s, s');
    AcksStable(s, s');
    assert NodeLogOk(s, n);
    AnchoredStable(s, s', s.log[n]);
    CommitsStable(s, s');
    NodeLogsStable(s, s');
    LeadersStable(s, s');
    NodeAcksStable(s, s');
  }

  lemma VoteInv(s: State, v: NodeId, c: NodeId, t: nat)
    requires Inv(s) && CanVote(s, v, c, t)
    ensures Inv(Vote(s, v, c, t)) && Grows(s, Vote(s, v, c, t))
  {
    var s' := Vote(s, v, c, t);
    var b := Ballot(v, t);
    assert Grows(s, s');
    RecordsStable(s, s');
    AcksStable(s, s');
    CommitsStable(s, s');
    NodeLogsStable(s, s');
    LeadersStable(s, s');
    NodeAcksStable(s, s');
    assert NodeLogOk(s, v) && CandOk(s, Ballot(c, t));
    forall d: Ballot, u: nat, k: nat ensures VoteAckOk(s', d, u, k) {
      assert VoteAckOk(s, d, u, k);
      if d == b {
        assert NodeAckOk(s, v, u, k);
        if IsPoint(s, u, k) && Shares(s.log[v], s.tlog[u], k) {
          UpToDateHolds(s, s.cand[Ballot(c, t)], s.log[v], u, k);
        }
        if Blocked(s, u, k) { BlockedStable(s, s', u, k); }
      } else if d in s.voted && IsPoint(s, u, k) {
        assert VoteOk(s, d);
        VoteAckStable(s, s', d, u, k);
      }
    }
  }

  lemma AcceptInv(s: State, v: NodeId, t: nat, j: nat)
    requires Inv(s) && CanAccept(s, v, t, j)
    ensures Inv(Accept(s, v, t, j)) && Grows(s, Accept(s, v, t, j))
  {
    var s' := Accept(s, v, t, j);
    assert Grows(s, s');
    RecordsStable(s, s');
    AcksStable(s, s');
    CommitsStable(s, s');
    LeadersStable(s, s');
    VoteAcksStable(s, s');
    assert LeaderLogOk(s, t);
    AcceptedLogOk(s, s', v, t, j);
    forall m | m in s'.members ensures NodeLogOk(s', m) {
      assert NodeLogOk(s, m);
      if m != v { NodeLogStable(s, s', m); }
    }
    AcceptNodeAcks(s, s', v, t, j);
  }

  lemma AcceptNodeAcks(s: State, s': State, v: NodeId, t: nat, j: nat)
    requires Inv(s) && CanAccept(s, v, t, j) && s' == Accept(s, v, t, j) && Grows(s, s')
    ensures InvNodeAcks(s')
  {
    forall m: NodeId, u: nat, k: nat ensures NodeAckOk(s', m, u, k) {
      assert NodeAckOk(s, m, u, k);
      if m in s.log && IsPoint(s, u, k) {
        if m == v {
          if k <= Acked(s, v, u) { AcceptKeepsAcked(s, v, t, j, u, k); }
          if Blocked(s, u, k) { BlockedStable(s, s', u, k); }
        } else {
          NodeAckStable(s, s', m, u, k);
        }
      }
    }
  }

  lemma AcceptedLogOk(s: State, s': State, v: NodeId, t: nat, j: nat)
    requires LeaderLogOk(s, t) && CanAccept(s, v, t, j) && s' == Accept(s, v, t, j)
    ensures NodeLogOk(s', v)
  {
    var l := s'.log[v];
    forall i | 0 <= i < |l| ensures AnchoredAt(s', l, i) {
      assert AnchoredAt(s, s.tlog[t], i);
      assert l[..i + 1] == s.tlog[t][..i + 1];
    }
  }

  /** Accepting from a Leader never gives up an acknowledged index that could
      still be committed. */
  lemma AcceptKeepsAcked(s: State, v: NodeId, t: nat, j: nat, u: nat, k: nat)
    requires Inv(s) && CanAccept(s, v, t, j) && IsPoint(s, u, k) && k <= Acked(s, v, u)
    ensures Shares(s.tlog[t][..j], s.tlog[u], k) || Blocked(s, u, k)
  {
    assert NodeAckOk(s, v, u, k);
    assert AckOk(s, Ballot(v, u));
    if !Blocked(s, u, k) {
      if u < t {
        assert CompleteOk(s, t, u, k);
      }
      SharesTrans(s.log[v], s.tlog[u], s.tlog[t], k);
      if j < k { SharesLess(s.log[v], s.tlog[t], j + 1, k); }
      assert s.tlog[t][..j][..k] == s.tlog[t][..k];
    }
  }

  lemma AckInv(s: State, v: NodeId, t: nat, k: nat)
    requires Inv(s) && CanAck(s, v, t, k)
    ensures Inv(Ack(s, v, t, k)) && Grows(s, Ack(s, v, t, k))
  {
    var s' := Ack(s, v, t, k);
    assert Grows(s, s');
    RecordsStable(s, s');
    forall b | b in s'.acked ensures AckOk(s', b) {
      if b in s.acked { assert AckOk(s, b); }
    }
    CommitsStable(s, s');
    NodeLogsStable(s, s');
    LeadersStable(s, s');
    VoteAcksStable(s, s');
    AckNodeAcks(s, v, t, k);
  }

  lemma AckNodeAcks(s: State, v: NodeId, t: nat, k: nat)
    requires InvNodeAcks(s) && CanAck(s, v, t, k) && Grows(s, Ack(s, v, t, k))
    ensures InvNodeAcks(Ack(s, v, t, k))
  {
    var s' := Ack(s, v, t, k);
    forall m: NodeId, u: nat, i: nat ensures NodeAckOk(s', m, u, i) {
      assert NodeAckOk(s, m, u, i);
      if m in s.log && IsPoint(s, u, i) {
        if Blocked(s, u, i) {
          BlockedStable(s, s', u, i);
        } else if m == v && u == t && i <= k {
          SharesLess(s.log[v], s.tlog[t], i, k);
        }
      }
    }
  }

  lemma CommitInv(s: State, t: nat, k: nat, q: set<NodeId>)
    requires Inv(s) && CanCommit(s, t, k, q)
    ensures Inv(Commit(s, t, k)) && Grows(s, Commit(s, t, k))
  {
    var s' := Commit(s, t, k);
    CommitComparable(s, t, k, q);
    assert Grows(s, s');
    DomainsStable(s, s');
    NodeLogsStable(s, s');
    LeadersStable(s, s');
    VoteAcksStable(s, s');
    NodeAcksStable(s, s');
    forall p | p in s'.commits ensures CommitOk(s', p) {
      if p in s.commits {
        assert CommitOk(s, p);
        assert s'.chosen[..p.index] == s.chosen[..p.index];
        var r :| IsQuorum(s.members, r) && AckedBy(s, r, p.term, p.index);
        assert AckedBy(s', r, p.term, p.index);
      } else {
        assert AckedBy(s', q, t, k);
      }
    }
    if k > |s.chosen| { assert Point(t, k) in s'.commits; }
    else { assert s'.chosen == s.chosen; }
  }

  /** The log prefix behind a new commit is comparable with everything committed before. */
  lemma CommitComparable(s: State, t: nat, k: nat, q: set<NodeId>)
    requires Inv(s) && CanCommit(s, t, k, q)
    ensures Shares(s.tlog[t], s.chosen, Min(k, |s.chosen|))
  {
    AckedNotBlocked(s, t, k, q);
    if s.chosen != [] {
      var p :| p in s.commits && p.index == |s.chosen|;
      assert CommitOk(s, p);
      var r :| IsQuorum(s.members, r) && AckedBy(s, r, p.term, p.index);
      AckedNotBlocked(s, p.term, p.index, r);
      var m := Min(k, |s.chosen|);
      if p.term < t {
        assert CompleteOk(s, t, p.term, p.index);
        SharesLess(s.tlog[t], s.tlog[p.term], m, p.index);
      } else if t < p.term {
        assert CompleteOk(s, p.term, t, k);
        SharesLess(s.tlog[p.term], s.tlog[t], m, k);
      }
      SharesLess(s.tlog[p.term], s.chosen, m, p.index);
    }
  }

  lemma ExtendGrows(s: State, c: NodeId, t: nat, e: Entry)
    requires InvDomains(s) && CanExtend(s, c, t, e)
    ensures Grows(s, Extend(s, c, t, e))
  {
  }

  lemma ExtendLogs(s: State, c: NodeId, t: nat, e: Entry)
    requires InvDomains(s) && InvNodeLogs(s) && InvLeaderLogs(s) && CanExtend(s, c, t, e)
    requires Grows(s, Extend(s, c, t, e))
    ensures InvNodeLogs(Extend(s, c, t, e)) && InvLeaderLogs(Extend(s, c, t, e))
  {
    var s' := Extend(s, c, t, e);
    assert NodeLogOk(s, c) && LeaderLogOk(s, t);
    NewLeaderLog(s, s', c, t, e);
    forall m | m in s'.members ensures NodeLogOk(s', m) {
      assert NodeLogOk(s, m);
      if m != c { NodeLogStable(s, s', m); }
    }
    forall u | u in s'.tlog ensures LeaderLogOk(s', u) {
      assert LeaderLogOk(s, u);
      if u != t { LeaderLogStable(s, s', u); } else { LeaderLogGrown(s, s', t, e); }
    }
  }

  /** A Leader's log stays well formed when it grows by an entry of its Term. */
  lemma LeaderLogGrown(s: State, s': State, t: nat, e: Entry)
    requires LeaderLogOk(s, t) && Grows(s, s') && e.term == t
    requires s'.tlog[t] == s.tlog[t] + [e] && Anchored(s', s'.tlog[t])
    ensures LeaderLogOk(s', t)
  {
    var l := s.cand[Ballot(s.ldr[t], t)];
    assert s'.tlog[t][..|l|] == s.tlog[t][..|l|];
    forall v | v in s'.electors[t] ensures VotedFor(s', v, t, s'.ldr[t]) {
      assert VotedFor(s, v, t, s.ldr[t]);
    }
  }

  lemma ExtendInv(s: State, c: NodeId, t: nat, e: Entry)
    requires Inv(s) && CanExtend(s, c, t, e)
    ensures Inv(Extend(s, c, t, e)) && Grows(s, Extend(s, c, t, e))
  {
    var s' := Extend(s, c, t, e);
    ExtendGrows(s, c, t, e);
    RecordsStable(s, s');
    AcksStable(s, s');
    CommitsStable(s, s');
    ExtendLogs(s, c, t, e);
    NewPointAcks(s, s', t);
    NewPointComplete(s, s', t);
  }

  /** Appending an entry of its own Term keeps a Leader's log anchored. */
  lemma NewLeaderLog(s: State, s': State, c: NodeId, t: nat, e: Entry)
    requires Grows(s, s') && c in s.log && Anchored(s, s.log[c])
    requires t in s'.tlog && c in s'.log && s'.log[c] == s.log[c] + [e] == s'.tlog[t]
    requires e.term == t && e.index == |s.log[c]| + 1
    ensures Anchored(s', s'.log[c])
  {
    var l, l' := s.log[c], s'.log[c];
    forall i | 0 <= i < |l'| ensures AnchoredAt(s', l', i) {
      if i < |l| {
        assert AnchoredAt(s, l, i);
        assert l'[..i + 1] == l[..i + 1];
      }
    }
  }

  /** No acknowledgement reaches a Leader's newest entry yet. */
  lemma NewPointAcks(s: State, s': State, t: nat)
    requires InvDomains(s) && InvNodeAcks(s) && InvVoteAcks(s) && Grows(s, s')
    requires s'.acked == s.acked && s'.voted == s.voted && s'.cand == s.cand && s'.log.Keys == s.log.Keys
    requires forall m :: m in s.log ==> s.log[m] <= s'.log[m]
    requires forall u :: u in s'.tlog && u != t ==> u in s.tlog && s'.tlog[u] == s.tlog[u]
    ensures InvNodeAcks(s') && InvVoteAcks(s')
  {
    forall v: NodeId, u: nat, k: nat ensures NodeAckOk(s', v, u, k) {
      assert NodeAckOk(s, v, u, k);
      if v in s.log && IsPoint(s', u, k) && k <= Acked(s', v, u) {
        assert AckOk(s, Ballot(v, u));
        NodeAckStable(s, s', v, u, k);
      }
    }
    forall b: Ballot, u: nat, k: nat ensures VoteAckOk(s', b, u, k) {
      assert VoteAckOk(s, b, u, k);
      if b in s.voted && IsPoint(s', u, k) && k <= Acked(s', b.node, u) {
        assert VoteOk(s, b) && AckOk(s, Ballot(b.node, u));
        VoteAckStable(s, s', b, u, k);
      }
    }
  }

  /** A Leader's newest entry is blocked wherever a later Leader already exists. */
  lemma NewPointComplete(s: State, s': State, t: nat)
    requires InvDomains(s) && InvLeaderLogs(s) && InvComplete(s) && Grows(s, s')
    requires t in s.tlog
    requires forall u :: u in s'.tlog && u != t ==> u in s.tlog && s'.tlog[u] == s.tlog[u]
    ensures InvComplete(s')
  {
    forall later: nat, u: nat, k: nat ensures CompleteOk(s', later, u, k) {
      assert CompleteOk(s, later, u, k);
      if later in s'.tlog && u < later && IsPoint(s', u, k) {
        if IsPoint(s, u, k) {
          CompleteStable(s, s', later, u, k);
        } else {
          LaterElectionBlocks(s, s', later, u, k);
        }
      }
    }
  }

  lemma ElectGrows(s: State, c: NodeId, t: nat, q: set<NodeId>, e: Entry)
    requires InvDomains(s) && CanElect(s, c, t, q, e)
    ensures Grows(s, Elect(s, c, t, q, e))
  {
  }

  lemma ElectLogs(s: State, c: NodeId, t: nat, q: set<NodeId>, e: Entry)
    requires InvDomains(s) && InvNodeLogs(s) && InvLeaderLogs(s) && CanElect(s, c, t, q, e)
    requires Grows(s, Elect(s, c, t, q, e))
    ensures InvNodeLogs(Elect(s, c, t, q, e)) && InvLeaderLogs(Elect(s, c, t, q, e))
  {
    var s' := Elect(s, c, t, q, e);
    assert NodeLogOk(s, c) && CandOk(s, Ballot(c, t));
    NewLeaderLog(s, s', c, t, e);
    forall m | m in s'.members ensures NodeLogOk(s', m) {
      assert NodeLogOk(s, m);
      if m != c { NodeLogStable(s, s', m); }
    }
    forall u | u in s'.tlog ensures LeaderLogOk(s', u) {
      if u != t {
        assert LeaderLogOk(s, u);
        LeaderLogStable(s, s', u);
      } else {
        forall v | v in q ensures VotedFor(s', v, t, c) { assert VotedFor(s, v, t, c); }
      }
    }
  }

  /** Leader completeness at the moment of election: whatever a majority could
      still commit from an earlier Term, the new Leader already holds. */
  lemma ElectedHolds(s: State, c: NodeId, t: nat, q: set<NodeId>, e: Entry, u: nat, k: nat)
    requires Inv(s) && CanElect(s, c, t, q, e) && u < t && IsPoint(s, u, k)
    ensures Shares(s.log[c], s.tlog[u], k) || Blocked(s, u, k)
  {
    if v :| v in q && k <= Acked(s, v, u) {
      assert VotedFor(s, v, t, c) && VoteOk(s, Ballot(v, t));
      assert VoteAckOk(s, Ballot(v, t), u, k);
    } else {
      forall v | v in q ensures v in s.term && u < s.term[v] && Acked(s, v, u) < k {
        assert VotedFor(s, v, t, c) && VoteOk(s, Ballot(v, t));
      }
      assert BlockedBy(s, q, u, k);
    }
  }

  lemma ElectComplete(s: State, c: NodeId, t: nat, q: set<NodeId>, e: Entry)
    requires Inv(s) && CanElect(s, c, t, q, e) && Grows(s, Elect(s, c, t, q, e))
    ensures InvComplete(Elect(s, c, t, q, e))
  {
    var s' := Elect(s, c, t, q, e);
    assert CandOk(s, Ballot(c, t));
    forall later: nat, u: nat, k: nat ensures CompleteOk(s', later, u, k) {
      if later in s'.tlog && u < later && IsPoint(s', u, k) {
        if u == t {
          LaterElectionBlocks(s, s', later, u, k);
        } else if later == t {
          ElectedHolds(s, c, t, q, e, u, k);
          if Blocked(s, u, k) { BlockedStable(s, s', u, k); }
          else { assert s'.tlog[t][..k] == s.log[c][..k]; }
        } else {
          assert CompleteOk(s, later, u, k);
          CompleteStable(s, s', later, u, k);
        }
      }
    }
  }

  lemma ElectInv(s: State, c: NodeId, t: nat, q: set<NodeId>, e: Entry)
    requires Inv(s) && CanElect(s, c, t, q, e)
    ensures Inv(Elect(s, c, t, q, e)) && Grows(s, Elect(s, c, t, q, e))
  {
    var s' := Elect(s, c, t, q, e);
    ElectGrows(s, c, t, q, e);
    RecordsStable(s, s');
    AcksStable(s, s');
    CommitsStable(s, s');
    ElectLogs(s, c, t, q, e);
    NewPointAcks(s, s', t);
    ElectComplete(s, c, t, q, e);
  }

  // ------------------------------------------------------------- consequences

  /** Election safety: a majority for c in Term t makes c that Term's only Leader. */
  lemma OneLeaderPerTerm(s: State, t: nat, c: NodeId, q: set<NodeId>)
    requires Inv(s) && t in s.tlog
    requires IsQuorum(s.members, q) && (forall v {:trigger VotedFor(s, v, t, c)} :: v in q ==> VotedFor(s, v, t, c))
    ensures s.ldr[t] == c
  {
    assert LeaderLogOk(s, t);
    var v := QuorumsIntersect(s.members, q, s.electors[t]);
    assert VotedFor(s, v, t, c) && VotedFor(s, v, t, s.ldr[t]);
  }

  /** Leader completeness: a committed index is in the log of every later Leader. */
  lemma LeaderCompleteness(s: State, p: Point, later: nat)
    requires Inv(s) && p in s.commits && later in s.tlog && p.term <= later
    ensures IsPoint(s, p.term, p.index) && Shares(s.tlog[later], s.tlog[p.term], p.index)
  {
    assert CommitOk(s, p);
    var q :| IsQuorum(s.members, q) && AckedBy(s, q, p.term, p.index);
    AckedNotBlocked(s, p.term, p.index, q);
    assert CompleteOk(s, later, p.term, p.index);
  }
}
