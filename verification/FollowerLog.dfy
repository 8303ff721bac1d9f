/** What a Follower's log looks like after an AppendRequest, and what its answer
    is worth: acceptance, acknowledgement of the whole log, and conflict hints. */
module FollowerLog {
  import opened Types
  import opened Messages
  import opened Node
  import opened Cluster
  import opened Protocol
  import opened ProtocolProofs
  import opened Coupling
  import opened Effects

  /** Entries carry positive Terms. */
  lemma TermPositive(s: State, l: seq<Entry>, i: nat)
    requires Inv(s) && Anchored(s, l) && i < |l|
    ensures 0 < l[i].term
  {
    assert AnchoredAt(s, l, i);
    assert LeaderLogOk(s, l[i].term);
    assert CandOk(s, Ballot(s.ldr[l[i].term], l[i].term));
  }

  /** A Node in Term t holding an entry of Term t holds only its Leader's entries. */
  lemma OwnTermSyncs(s: State, f: NodeId, t: nat, k: nat)
    requires Inv(s) && f in s.members && t in s.tlog && s.term[f] == t
    requires 0 < k <= |s.log[f]| && s.log[f][k - 1].term == t
    ensures Synced(s, f, t)
  {
    assert NodeLogOk(s, f);
    var l := s.log[f];
    TermsMonotone(s, l, k - 1, |l| - 1);
    assert AnchoredAt(s, l, |l| - 1);
    assert l == l[..|l|];
  }

  /** What Above says about a Node that is in the Term. */
  lemma AboveMeans(s: State, f: NodeId, t: nat, m: nat)
    requires Inv(s) && f in s.members && s.term[f] == t && Above(s, f, t, m)
    ensures Synced(s, f, t) || !Shares(s.log[f], s.tlog[t], m)
  {
    if CandLen(s, t) < m && Shares(s.log[f], s.tlog[t], m) {
      assert LeaderLogOk(s, t);
      assert s.log[f][m - 1] == s.log[f][..m][m - 1] == s.tlog[t][..m][m - 1];
      OwnTermSyncs(s, f, t, m);
    }
  }

  /** A position the Node accepts is one it shares with the Leader. */
  lemma MatchShares(s: State, id: NodeId, n: Node, t: nat, prev: nat)
    requires Inv(s) && LogView(s, id, n) && t in s.tlog && prev <= |s.tlog[t]|
    requires Matches(n, prev, TermOf(s.tlog[t], prev))
    ensures Shares(s.log[id], s.tlog[t], prev)
  {
    if prev > 0 {
      assert NodeLogOk(s, id) && LeaderLogOk(s, t);
      TermPositive(s, s.tlog[t], prev - 1);
      TermAtIs(s, id, n, prev);
      LogMatching(s, s.log[id], s.tlog[t], prev);
    }
  }

  /** The log a plan leaves behind. */
  function Planned(l: seq<Entry>, plan: Plan): seq<Entry>
    requires plan.Store? ==> plan.truncateFrom <= |l| + 1
  {
    match plan
    case Refuse => l
    case Nothing => l
    case Store(0, tail) => l + tail
    case Store(from, tail) => l[..from - 1] + tail
  }

  /** A plan stores exactly the Leader's log up to the request's end, or finds
      every entry already present, or refuses only what is below the Snapshot. */
  ghost predicate PlanIs(l: seq<Entry>, r: seq<Entry>, n: Node, p: nat, q: nat, plan: Plan) {
    match plan
    case Refuse => p + 1 < n.base
    case Nothing => Shares(l, r, q)
    case Store(from, tail) =>
      && tail != [] && (from == 0 || n.commit < from <= |l|)
      && p + |tail| <= q <= |r| && tail == r[q - |tail|..q]
      && Planned(l, plan) == r[..q] && !Shares(l, r, q - |tail| + 1)
      && (from == 0 ==> q - |tail| == |l|) && (from != 0 ==> q - |tail| + 1 == from)
  }

  /** What a Follower finds at one index of a current Leader's log. */
  lemma PlanPoint(s: State, id: NodeId, n: Node, t: nat, p: nat)
    requires Inv(s) && LogView(s, id, n) && CommitView(s, id, n) && t in s.tlog && n.term == t
    requires p < |s.tlog[t]| && Shares(s.log[id], s.tlog[t], p)
    ensures var l, r := s.log[id], s.tlog[t];
            && r[p].index == p + 1 && r[p].term > 0 && |l| == LastIndex(n) && n.base <= n.commit <= |l|
            && (p < |l| && p + 1 < n.base ==> TermAt(n, p + 1) == 0)
            && (p < |l| && n.base <= p + 1 ==> TermAt(n, p + 1) == l[p].term)
            && (p < |l| && l[p].term == r[p].term ==> Shares(l, r, p + 1))
            && (p < |l| && l[p].term != r[p].term ==> n.commit <= p)
  {
    var l, r := s.log[id], s.tlog[t];
    assert NodeLogOk(s, id) && LeaderLogOk(s, t);
    TermPositive(s, r, p);
    LastTermIs(s, id, n);
    if p < |l| {
      if n.base <= p + 1 { TermAtIs(s, id, n, p + 1); }
      if l[p].term == r[p].term { LogMatching(s, l, r, p + 1); } else { CommittedAgree(s, id, n, t, p); }
    }
  }

  /** An entry already present is passed over. */
  lemma PlanSkips(n: Node, r: seq<Entry>, p: nat, q: nat)
    requires p < q <= |r| && r[p].index == p + 1 <= LastIndex(n) && TermAt(n, p + 1) == r[p].term
    ensures PlanAppend(n, p + 1, r[p..q]) == PlanAppend(n, p + 2, r[p + 1..q])
  {
    hide TermAt;
    assert r[p..q][0] == r[p] && r[p..q][1..] == r[p + 1..q];
  }

  /** An entry that is new or differs is where storing starts, or is refused. */
  lemma PlanStops(n: Node, r: seq<Entry>, p: nat, q: nat)
    requires p < q <= |r| && r[p].index == p + 1 && p <= LastIndex(n) && (p < LastIndex(n) ==> TermAt(n, p + 1) != r[p].term)
    ensures PlanAppend(n, p + 1, r[p..q]) ==
              if p == LastIndex(n) then Store(0, r[p..q]) else if p < n.commit then Refuse else Store(p + 1, r[p..q])
  {
    hide TermAt;
    assert r[p..q][0] == r[p];
  }

  lemma PlanLower(l: seq<Entry>, r: seq<Entry>, n: Node, p: nat, q: nat, plan: Plan)
    requires PlanIs(l, r, n, p + 1, q, plan)
    ensures PlanIs(l, r, n, p, q, plan)
  {
  }

  lemma PlanMeaning(s: State, id: NodeId, n: Node, t: nat, p: nat, q: nat)
    requires Inv(s) && LogView(s, id, n) && CommitView(s, id, n) && t in s.tlog && n.term == t
    requires p <= q <= |s.tlog[t]| && Shares(s.log[id], s.tlog[t], p)
    ensures PlanIs(s.log[id], s.tlog[t], n, p, q, PlanAppend(n, p + 1, s.tlog[t][p..q]))
    decreases q - p
  {
    hide Inv, CommitView, TermAt, IsPeerList, PlanAppend, PlanIs;
    var l, r := s.log[id], s.tlog[t];
    if p == q {
      PlanEmpty(l, r, n, p);
    } else {
      PlanPoint(s, id, n, t, p);
      if p < |l| && TermAt(n, p + 1) == r[p].term {
        PlanSkips(n, r, p, q);
        PlanMeaning(s, id, n, t, p + 1, q);
        PlanLower(l, r, n, p, q, PlanAppend(n, p + 2, r[p + 1..q]));
      } else {
        PlanStops(n, r, p, q);
        StopIs(l, r, n, p, q);
      }
    }
  }

  lemma PlanEmpty(l: seq<Entry>, r: seq<Entry>, n: Node, p: nat)
    requires p <= |r| && Shares(l, r, p)
    ensures PlanIs(l, r, n, p, p, PlanAppend(n, p + 1, r[p..p]))
  {
  }

  lemma StopIs(l: seq<Entry>, r: seq<Entry>, n: Node, p: nat, q: nat)
    requires p < q <= |r| && Shares(l, r, p) && |l| == LastIndex(n) && n.base <= n.commit
    requires p < |l| ==> p + 1 < n.base || (l[p].term != r[p].term && n.commit <= p)
    ensures PlanIs(l, r, n, p, q, if p == |l| then Store(0, r[p..q]) else if p < n.commit then Refuse else Store(p + 1, r[p..q]))
  {
    if p == |l| {
      assert l == r[..p];
      assert l + r[p..q] == r[..q];
    } else if n.commit <= p {
      ReplaceIs(l, r, p, q);
    }
  }

  /** Below the commit index a Node never disagrees with a current Leader. */
  lemma CommittedAgree(s: State, id: NodeId, n: Node, t: nat, p: nat)
    requires Inv(s) && LogView(s, id, n) && CommitView(s, id, n) && t in s.tlog && n.term == t
    requires p < |s.log[id]| && p < |s.tlog[t]| && s.log[id][p].term != s.tlog[t][p].term
    ensures n.commit <= p
  {
    SettledLeader(s, n.term, s.log[id], n.commit, t);
  }

  lemma ReplaceIs(l: seq<Entry>, r: seq<Entry>, p: nat, q: nat)
    requires p < q <= |r| && p < |l| && Shares(l, r, p) && l[p].term != r[p].term
    ensures l[..p] + r[p..q] == r[..q] && !Shares(l, r, p + 1)
  {
    assert l[..p] + r[p..q] == r[..q];
  }

  /** When every offered entry is already present and the request was safe to
      send, the whole log is the Leader's. */
  lemma NothingNewSyncs(s: State, id: NodeId, n: Node, t: nat, prev: nat, q: nat)
    requires Inv(s) && LogView(s, id, n) && t in s.tlog && n.term == t
    requires prev <= q && Shares(s.log[id], s.tlog[t], q) && Above(s, id, t, prev + 1)
    requires q == prev ==> TermOf(s.tlog[t], prev) == t
    ensures Synced(s, id, t)
  {
    AboveMeans(s, id, t, prev + 1);
    var l, r := s.log[id], s.tlog[t];
    if prev < q {
      SharesLess(l, r, prev + 1, q);
    } else {
      assert LeaderLogOk(s, t) && CandOk(s, Ballot(s.ldr[t], t));
      assert l[prev - 1] == l[..prev][prev - 1] == r[..prev][prev - 1];
      OwnTermSyncs(s, id, t, prev);
    }
  }

  // -------------------------------------------------------------- conflict hints

  /** The first index of a run of one Term: everything from it on has that Term. */
  lemma FirstOfTermIs(n: Node, index: nat, term: nat)
    requires n.base < index <= LastIndex(n) && TermAt(n, index) == term
    ensures var f := FirstOfTerm(n, index, term);
            n.base < f <= index && forall i :: f <= i <= index ==> TermAt(n, i) == term
    decreases index
  {
    if index > n.base + 1 && TermAt(n, index - 1) == term {
      FirstOfTermIs(n, index - 1, term);
    }
  }

  /** A rejection at an index the two logs do not share carries a sound hint. */
  lemma HintSound(s: State, id: NodeId, n: Node, t: nat, index: nat)
    requires Inv(s) && LogView(s, id, n) && t in s.tlog && n.term == t
    requires !Shares(s.log[id], s.tlog[t], index)
    requires index > LastIndex(n) || n.base <= index
    requires index == n.base ==> index == 0
    ensures HintOk(s, id, t, ConflictHint(n, index))
  {
    var l, r, h := s.log[id], s.tlog[t], ConflictHint(n, index);
    LastTermIs(s, id, n);
    assert NodeLogOk(s, id);
    forall k: nat | Shares(l, r, k) ensures HintAbove(r, k, h) {
      if 0 < index <= LastIndex(n) {
        assert k < index by { if index <= k { SharesLess(l, r, index, k); } }
        HintAboveAt(s, id, n, r, index, k);
      }
    }
  }

  lemma HintAboveAt(s: State, id: NodeId, n: Node, r: seq<Entry>, index: nat, k: nat)
    requires Inv(s) && LogView(s, id, n) && n.base < index <= LastIndex(n)
    requires k < index && Shares(s.log[id], r, k)
    ensures HintAbove(r, k, ConflictHint(n, index))
  {
    var l := s.log[id];
    assert NodeLogOk(s, id);
    TermAtIs(s, id, n, index);
    TermPositive(s, l, index - 1);
    var term := TermAt(n, index);
    FirstOfTermIs(n, index, term);
    if k > 0 {
      assert l[k - 1] == l[..k][k - 1] == r[..k][k - 1];
      TermsMonotone(s, l, k - 1, index - 1);
      if FirstOfTerm(n, index, term) <= k { TermAtIs(s, id, n, k); }
    }
  }

  // ------------------------------------------------- the Leader's use of a hint

  lemma LastOfTermIs(n: Node, index: nat, term: nat)
    requires term != 0
    ensures var f := LastOfTerm(n, index, term);
            && f <= index && (f > 0 ==> TermAt(n, f) == term)
            && forall i :: f < i <= index ==> TermAt(n, i) != term
  {
  }

  /** A sound hint never moves a Leader's next index into the shared prefix,
      except onto the Snapshot path. */
  lemma HintKeepsAbove(s: State, id: NodeId, n: Node, f: NodeId, h: Hint)
    requires Inv(s) && LogView(s, id, n) && Leads(s, id, n) && f in s.members && HintOk(s, f, n.term, h)
    requires h.index > 0
    ensures var next := NextIndexFromConflict(n, h); 0 < next && Above(s, f, n.term, Max(next, n.base))
  {
    var next := NextIndexFromConflict(n, h);
    var m := Max(next, n.base);
    var t, r := n.term, s.tlog[n.term];
    LastTermIs(s, id, n);
    assert LeaderLogOk(s, t);
    if !InStep(s, f, t) && Shares(s.log[f], r, m) {
      assert HintAbove(r, m, h);
      TermAtIs(s, id, n, m);
      if h.term != 0 {
        LastOfTermIs(n, LastIndex(n), h.term);
        var found := LastOfTerm(n, LastIndex(n), h.term);
        if found != 0 {
          FoundRetained(s, id, n, found, h.term);
          TermsMonotone(s, r, found - 1, m - 1);
        }
      }
    }
  }

  lemma FoundRetained(s: State, id: NodeId, n: Node, found: nat, term: nat)
    requires LogView(s, id, n) && 0 < found <= LastIndex(n) && term != 0 && TermAt(n, found) == term
    ensures n.base <= found && s.log[id][found - 1].term == term
  {
  }
}
