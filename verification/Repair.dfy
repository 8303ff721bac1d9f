/** Conflict repair: how a Leader's next index for one Follower moves while its
    requests are rejected, when that ends, and when an acknowledgement is true.
    Neither holds without a condition; both conditions are exact. */
module Repair {
  import opened Types
  import opened Messages
  import opened Quorums
  import opened Node
  import opened Cluster
  import opened Protocol
  import opened ProtocolProofs
  import opened Coupling
  import opened Effects
  import opened FollowerLog
  import opened Followers
  import Runs

  /** A Leader n and a Node f that is in its Term. */
  ghost predicate Facing(s: State, id: NodeId, n: Node, peer: NodeId, f: Node) {
    && id in s.log && peer in s.log && Inv(s) && LogView(s, id, n) && Leads(s, id, n)
    && LogView(s, peer, f) && CommitView(s, peer, f) && f.term == n.term && peer != id
  }

  /** Every Leader and every other Node of its Term, in every reachable Cluster. */
  lemma ReachableFacing(c: Cluster, id: NodeId, peer: NodeId) returns (s: State)
    requires Runs.Reachable(c) && id in c.hosts && peer in c.hosts && id != peer
    requires c.hosts[id].node.role == Leader && c.hosts[peer].node.term == c.hosts[id].node.term
    ensures Facing(s, id, c.hosts[id].node, peer, c.hosts[peer].node)
  {
    hide Runs.Reachable;
    var g := Runs.ReachableCoupled(c);
    Runs.ViewsOf(c, g, id);
    Runs.ViewsOf(c, g, peer);
    s := g.p;
  }

  /** What the Leader sends when its next index for the peer is `next`. */
  function Request(n: Node, next: nat, requestId: nat, readId: nat): Message
    requires 0 < next
  {
    AppendRequest(n.term, requestId, next - 1, TermAt(n, next - 1), EntriesBatch(n, next), n.commit, readId)
  }

  predicate Accepts(f: Node, n: Node, next: nat)
    requires 0 < next
  {
    Matches(f, next - 1, TermAt(n, next - 1)) && !PlanAppend(f, next, EntriesBatch(n, next)).Refuse?
  }

  function HintFor(f: Node, n: Node, next: nat): Hint
    requires 0 < next
  {
    if Matches(f, next - 1, TermAt(n, next - 1)) then ConflictHint(f, next) else ConflictHint(f, next - 1)
  }

  /** The next index after a rejection. */
  function Retry(f: Node, n: Node, next: nat): nat
    requires 0 < next
  {
    NextIndexFromConflict(n, HintFor(f, n, next))
  }

  /** Accepts, HintFor and Retry are what the two handlers do. */
  lemma RepairIsHandlers(f: Node, n: Node, id: NodeId, peer: NodeId, next: nat, requestId: nat, readId: nat, hs: seq<Write>)
    requires 0 < next
    ensures var m := Request(n, next, requestId, readId);
            var r, h := CurrentAppend(f, hs, id, m), HintFor(f, n, next);
            && r.actions != []
            && (!Accepts(f, n, next) ==> r.actions[|r.actions| - 1] == Reply(f, id, requestId, false, h, readId))
            && (Accepts(f, n, next) ==> r.actions[|r.actions| - 1] == Reply(r.node, id, requestId, true, Hint(0, 0), readId))
    ensures var reply := AppendReply(n.term, requestId, false, LastIndex(f), HintFor(f, n, next).term, HintFor(f, n, next).index, readId);
            var n' := NoteReply(n, peer, reply);
            peer in n'.nextIndex && n'.nextIndex[peer] == Retry(f, n, next)
  {
    hide ApplyThrough, PlanAppend, ConflictHint, EntriesBatch, TermAt, NextIndexFromConflict, StoreWrites, StoreEntries;
    var m := Request(n, next, requestId, readId);
    match PlanAppend(f, next, m.entries)
    case Nothing => FinishLast(f, hs, id, m);
    case Store(from, tail) => FinishLast(StoreEntries(f, from, tail), hs + StoreWrites(from, tail), id, m);
    case Refuse =>
  }

  lemma FinishLast(f: Node, writes: seq<Write>, from: NodeId, m: Message)
    requires m.AppendRequest?
    ensures var r := FinishAppend(f, writes, from, m);
            && r.actions != [] && LastIndex(r.node) == LastIndex(f)
            && r.actions[|r.actions| - 1] == Reply(r.node, from, m.requestId, true, Hint(0, 0), m.readId)
  {
    var target := Min(m.leaderCommit, LastIndex(f));
    var n1 := if target > f.commit then f.(commit := target) else f;
    ApplyKeepsWhole(n1, n1.commit);
  }

  // -------------------------------------------------------- one rejection

  /** Below its Snapshot a Node shares the Leader's history. */
  lemma BaseShared(s: State, id: NodeId, n: Node, peer: NodeId, f: Node)
    requires Facing(s, id, n, peer, f)
    ensures Shares(s.log[peer], s.log[id], f.base)
  {
    SettledLeader(s, f.term, s.log[peer], f.commit, n.term);
    SharesLess(s.log[peer], s.log[id], f.base, f.commit);
  }

  lemma AcceptsAtBase(s: State, id: NodeId, n: Node, peer: NodeId, f: Node)
    requires Facing(s, id, n, peer, f) && n.base <= f.base
    ensures f.base <= LastIndex(n) && Matches(f, f.base, TermAt(n, f.base))
  {
    BaseShared(s, id, n, peer, f);
    LastTermIs(s, id, n);
    TermAtIs(s, id, n, f.base);
    var l, r, b := s.log[peer], s.log[id], f.base;
    if b > 0 { assert l[b - 1] == l[..b][b - 1] == r[..b][b - 1]; }
  }

  lemma BatchWithin(s: State, id: NodeId, n: Node, next: nat)
    requires LogView(s, id, n) && n.base < next <= LastIndex(n) + 1
    ensures var es := EntriesBatch(n, next);
            next - 1 + |es| <= |s.log[id]| && es == s.log[id][next - 1..next - 1 + |es|]
  {
    BatchIs(s, id, n, next);
  }

  /** A request that starts above the Follower's Snapshot is only ever rejected
      because the position before it does not match. */
  lemma RejectedMeans(s: State, id: NodeId, n: Node, peer: NodeId, f: Node, next: nat)
    requires Facing(s, id, n, peer, f) && n.base < next <= LastIndex(n) + 1 && f.base <= next && 0 < f.base + next
    requires Matches(f, next - 1, TermAt(n, next - 1))
    ensures Accepts(f, n, next)
  {
    hide Inv, Settled, IsPeerList, PlanAppend, EntriesBatch;
    TermAtIs(s, id, n, next - 1);
    MatchShares(s, peer, f, n.term, next - 1);
    BatchWithin(s, id, n, next);
    PlanMeaning(s, peer, f, n.term, next - 1, next - 1 + |EntriesBatch(n, next)|);
  }

  /** The Leader finds the hinted Term only below the rejected position, and
      never below the Follower's Snapshot. */
  lemma FoundBetween(s: State, id: NodeId, n: Node, peer: NodeId, f: Node, prev: nat, found: nat)
    requires Facing(s, id, n, peer, f) && n.base <= prev <= LastIndex(n) && f.base < prev <= LastIndex(f)
    requires TermAt(f, prev) != TermAt(n, prev) && found == LastOfTerm(n, LastIndex(n), TermAt(f, prev))
    ensures 0 < TermAt(f, prev) && (found > 0 ==> f.base <= found < prev && n.base <= found)
  {
    var l, r, t := s.log[peer], s.log[id], TermAt(f, prev);
    assert NodeLogOk(s, peer) && NodeLogOk(s, id);
    TermAtIs(s, peer, f, prev);
    TermAtIs(s, id, n, prev);
    TermPositive(s, l, prev - 1);
    LastOfTermIs(n, LastIndex(n), t);
    if found > 0 {
      FoundRetained(s, id, n, found, t);
      assert found < prev by { FoundBelow(s, l, r, prev, found, t); }
      BaseShared(s, id, n, peer, f);
      if found < f.base {
        FoundAtBase(s, l, r, f.base, prev, found, t);
        TermAtIs(s, id, n, f.base);
      }
    }
  }

  lemma FoundBelow(s: State, l: seq<Entry>, r: seq<Entry>, prev: nat, found: nat, t: nat)
    requires Anchored(s, l) && Anchored(s, r) && 0 < prev <= |l| && prev <= |r| && 0 < found <= |r|
    requires l[prev - 1].term == t == r[found - 1].term && r[prev - 1].term != t
    ensures found < prev
  {
    assert AnchoredAt(s, l, prev - 1) && AnchoredAt(s, r, found - 1);
  }

  lemma FoundAtBase(s: State, l: seq<Entry>, r: seq<Entry>, base: nat, prev: nat, found: nat, t: nat)
    requires Inv(s) && Anchored(s, l) && Anchored(s, r) && Shares(l, r, base) && 0 < found < base < prev <= |l|
    requires l[prev - 1].term == t == r[found - 1].term
    ensures r[base - 1].term == t
  {
    assert l[base - 1] == l[..base][base - 1] == r[..base][base - 1];
    TermsMonotone(s, l, base - 1, prev - 1);
    TermsMonotone(s, r, found - 1, base - 1);
  }

  /** The two shapes of a rejection above the Snapshot. */
  lemma RetryShape(s: State, id: NodeId, n: Node, peer: NodeId, f: Node, next: nat)
    requires Facing(s, id, n, peer, f) && f.base < next && n.base < next <= LastIndex(n) + 1 && !Accepts(f, n, next)
    ensures f.base < next - 1
    ensures next - 1 > LastIndex(f) ==> Retry(f, n, next) == LastIndex(f) + 1
    ensures next - 1 <= LastIndex(f) ==>
              var t := TermAt(f, next - 1);
              var found := LastOfTerm(n, LastIndex(n), t);
              && 0 < t && TermAt(n, next - 1) != t
              && (found == 0 ==> Retry(f, n, next) == FirstOfTerm(f, next - 1, t))
              && (found > 0 ==> f.base <= found < next - 1 && n.base <= found && Retry(f, n, next) == found + 1)
  {
    var prev := next - 1;
    if Matches(f, prev, TermAt(n, prev)) { RejectedMeans(s, id, n, peer, f, next); }
    if prev == f.base { AcceptsAtBase(s, id, n, peer, f); }
    if prev <= LastIndex(f) {
      FoundBetween(s, id, n, peer, f, prev, LastOfTerm(n, LastIndex(n), TermAt(f, prev)));
      FirstOfTermIs(f, prev, TermAt(f, prev));
    }
  }

  /** Every rejection above the Snapshot moves strictly down and stays above it. */
  lemma RetryLower(s: State, id: NodeId, n: Node, peer: NodeId, f: Node, next: nat)
    requires Facing(s, id, n, peer, f) && f.base < next && n.base < next <= LastIndex(n) + 1 && !Accepts(f, n, next)
    ensures f.base < Retry(f, n, next) < next
  {
    RetryShape(s, id, n, peer, f, next);
    if next - 1 <= LastIndex(f) { FirstOfTermIs(f, next - 1, TermAt(f, next - 1)); }
  }

  /** At or below the Snapshot every request is rejected and none gets higher,
      unless the Snapshot covers a single entry. */
  lemma RetryBelow(s: State, id: NodeId, n: Node, peer: NodeId, f: Node, next: nat)
    requires Facing(s, id, n, peer, f) && n.base < next <= f.base && 1 < f.base
    ensures next <= LastIndex(n) && !Accepts(f, n, next)
    ensures Retry(f, n, next) == if next == 1 then 1 else next - 1
  {
    hide Accepts, Retry, Settled, Inv;
    BelowFacts(s, id, n, peer, f, next);
    if next == 1 { BelowAtOne(f, n); } else { BelowLater(f, n, next); }
  }

  lemma BelowFacts(s: State, id: NodeId, n: Node, peer: NodeId, f: Node, next: nat)
    requires Facing(s, id, n, peer, f) && n.base < next <= f.base && 1 < f.base
    ensures next <= LastIndex(n) && f.base <= f.commit
    ensures next > 1 ==> TermAt(n, next - 1) > 0
    ensures next == 1 ==> n.base == 0 == n.baseTerm && n.log != [] && n.log[0].index == 1 && n.log[0].term > 0
  {
    var r := s.log[id];
    BaseShared(s, id, n, peer, f);
    LastTermIs(s, id, n);
    assert NodeLogOk(s, id);
    TermPositive(s, r, 0);
    if next > 1 {
      TermAtIs(s, id, n, next - 1);
      TermPositive(s, r, next - 2);
    }
  }

  lemma BelowAtOne(f: Node, n: Node)
    requires 1 < f.base <= f.commit && n.base == 0 == n.baseTerm && n.log != [] && n.log[0].index == 1 && n.log[0].term > 0
    ensures !Accepts(f, n, 1) && Retry(f, n, 1) == 1
  {
    var es := EntriesBatch(n, 1);
    assert n.log[0..] == n.log;
    assert es != [] && es[0] == n.log[0];
    assert PlanAppend(f, 1, es).Refuse?;
  }

  lemma BelowLater(f: Node, n: Node, next: nat)
    requires 1 < next <= f.base && next <= LastIndex(n) && TermAt(n, next - 1) > 0
    ensures !Accepts(f, n, next) && Retry(f, n, next) == next - 1
  {
    assert FirstOfTerm(f, next - 1, 0) == next - 1;
    assert TermAt(f, next - 1) == 0 && !Matches(f, next - 1, TermAt(n, next - 1));
    assert HintFor(f, n, next) == Hint(0, next - 1);
  }

  // -------------------------------------------------------------- whole repairs

  datatype Outcome = Accepted | SnapshotNeeded | Stuck

  /** Follow the rejections until the Follower accepts, the Leader must send its
      Snapshot, or a rejection brings the Leader nowhere. */
  function Settle(f: Node, n: Node, next: nat): Outcome
    decreases next
  {
    if next <= n.base then SnapshotNeeded
    else if Accepts(f, n, next) then Accepted
    else if Retry(f, n, next) >= next then Stuck
    else Settle(f, n, Retry(f, n, next))
  }

  /** How many rejections that takes. */
  function Rounds(f: Node, n: Node, next: nat): nat
    decreases next
  {
    if next <= n.base || Accepts(f, n, next) || Retry(f, n, next) >= next then 0
    else 1 + Rounds(f, n, Retry(f, n, next))
  }

  lemma {:induction false} RepairConverges(s: State, id: NodeId, n: Node, peer: NodeId, f: Node, next: nat)
    requires Facing(s, id, n, peer, f) && f.base < next <= LastIndex(n) + 1
    ensures Settle(f, n, next) != Stuck
    decreases next
  {
    if n.base < next && !Accepts(f, n, next) {
      RetryLower(s, id, n, peer, f, next);
      RepairConverges(s, id, n, peer, f, Retry(f, n, next));
    }
  }

  /** Repair gets stuck exactly when the Leader has not compacted and its next
      index is at or below a Snapshot of more than one entry; otherwise it ends in
      acceptance or, at a Leader that has compacted, in a Snapshot transfer. */
  lemma {:induction false} RepairStuckIff(s: State, id: NodeId, n: Node, peer: NodeId, f: Node, next: nat)
    requires Facing(s, id, n, peer, f) && 0 < next <= LastIndex(n) + 1
    ensures Settle(f, n, next) == Stuck <==> n.base == 0 && next <= f.base && 1 < f.base
    ensures Settle(f, n, next) == SnapshotNeeded ==> 0 < n.base
    decreases next
  {
    if f.base < next {
      RepairConverges(s, id, n, peer, f, next);
      if n.base == 0 { NoSnapshotNeeded(s, id, n, peer, f, next); }
    } else if n.base < next {
      if 1 < f.base {
        RetryBelow(s, id, n, peer, f, next);
        if 1 < next { RepairStuckIff(s, id, n, peer, f, next - 1); }
      } else {
        AtFirstEntry(s, id, n, peer, f);
      }
    }
  }

  lemma {:induction false} NoSnapshotNeeded(s: State, id: NodeId, n: Node, peer: NodeId, f: Node, next: nat)
    requires Facing(s, id, n, peer, f) && n.base == 0 && f.base < next <= LastIndex(n) + 1
    ensures Settle(f, n, next) == Accepted
    decreases next
  {
    if !Accepts(f, n, next) {
      RetryLower(s, id, n, peer, f, next);
      NoSnapshotNeeded(s, id, n, peer, f, Retry(f, n, next));
    }
  }

  lemma AtFirstEntry(s: State, id: NodeId, n: Node, peer: NodeId, f: Node)
    requires Facing(s, id, n, peer, f) && n.base == 0 && f.base == 1
    ensures Accepts(f, n, 1)
  {
    TermAtIs(s, id, n, 0);
    assert LeaderLogOk(s, n.term);
    RejectedMeans(s, id, n, peer, f, 1);
  }

  // ------------------------------------------------------------ number of rounds

  /** The Terms among the Follower's retained entries after `from`, up to an index. */
  function TermsUpTo(f: Node, from: nat, index: nat): set<nat> {
    set i | 0 <= i < |f.log| && from <= f.base + i < index :: f.log[i].term
  }

  /** Only a probe beyond what both logs share is rejected. */
  lemma RejectedBeyond(s: State, id: NodeId, n: Node, peer: NodeId, f: Node, next: nat, shared: nat)
    requires Facing(s, id, n, peer, f) && f.base < next && n.base < next <= LastIndex(n) + 1 && !Accepts(f, n, next)
    requires Shares(s.log[peer], s.log[id], shared)
    ensures shared < next - 1
  {
    hide Accepts, Inv, CommitView, Leads, PlanAppend, EntriesBatch;
    if next - 1 <= shared {
      SharedMatches(s, id, n, peer, f, next - 1, shared);
      RejectedMeans(s, id, n, peer, f, next);
    }
  }

  lemma SharedMatches(s: State, id: NodeId, n: Node, peer: NodeId, f: Node, k: nat, shared: nat)
    requires LogView(s, id, n) && LogView(s, peer, f) && Shares(s.log[peer], s.log[id], shared) && k <= shared && f.base <= k && n.base <= k
    ensures Matches(f, k, TermAt(n, k))
  {
    TermAtIs(s, id, n, k);
    TermAtIs(s, peer, f, k);
    LastTermIs(s, peer, f);
    if k > 0 { assert s.log[peer][k - 1] == s.log[peer][..shared][k - 1] == s.log[id][..shared][k - 1]; }
  }

  lemma TermsFewer(f: Node, from: nat, i: nat, j: nat, t: nat)
    requires i <= j && t in TermsUpTo(f, from, j) && t !in TermsUpTo(f, from, i)
    ensures |TermsUpTo(f, from, i)| < |TermsUpTo(f, from, j)|
  {
    assert TermsUpTo(f, from, i) <= TermsUpTo(f, from, j) - {t};
    SubsetSize(TermsUpTo(f, from, i), TermsUpTo(f, from, j) - {t});
  }

  lemma TermsOnlyBelow(s: State, peer: NodeId, f: Node, from: nat, i: nat, j: nat, t: nat)
    requires Inv(s) && LogView(s, peer, f) && from < j && f.base < j <= LastIndex(f) && TermAt(f, j) == t
    requires i < j && (f.base < i ==> TermAt(f, i) != t)
    ensures t in TermsUpTo(f, from, j) && t !in TermsUpTo(f, from, i)
  {
    assert f.log[j - f.base - 1].term == t;
    assert NodeLogOk(s, peer);
    forall k | 0 <= k < |f.log| && from <= f.base + k < i ensures f.log[k].term != t {
      TermsMonotone(s, s.log[peer], f.base + k, i - 1);
      TermsMonotone(s, s.log[peer], i - 1, j - 1);
      assert f.log[k] == s.log[peer][f.base + k] && f.log[i - f.base - 1] == s.log[peer][i - 1];
    }
  }

  lemma FacingParts(s: State, id: NodeId, n: Node, peer: NodeId, f: Node)
    requires Facing(s, id, n, peer, f)
    ensures Inv(s) && LogView(s, peer, f)
  {
  }

  /** After a rejection the next probe is accepted or the hinted Term is behind. */
  lemma TermLeftBehind(s: State, id: NodeId, n: Node, peer: NodeId, f: Node, next: nat, from: nat)
    requires Facing(s, id, n, peer, f) && f.base < next && n.base < next <= LastIndex(n) + 1 && !Accepts(f, n, next) && next - 1 <= LastIndex(f)
    requires n.base < Retry(f, n, next) && !Accepts(f, n, Retry(f, n, next)) && from < next - 1
    ensures |TermsUpTo(f, from, Retry(f, n, next) - 1)| < |TermsUpTo(f, from, next - 1)|
  {
    hide Facing, Accepts, Retry, TermsUpTo, PlanAppend, EntriesBatch;
    FacingParts(s, id, n, peer, f);
    RetryShape(s, id, n, peer, f, next);
    RetryLower(s, id, n, peer, f, next);
    var prev, t, retry := next - 1, TermAt(f, next - 1), Retry(f, n, next);
    FirstOfTermIs(f, prev, t);
    FirstOfTermEdge(f, prev, t);
    LastOfTermIs(n, LastIndex(n), t);
    if f.base < retry - 1 && TermAt(f, retry - 1) == t {
      RejectedMeans(s, id, n, peer, f, retry);
    }
    TermsOnlyBelow(s, peer, f, from, retry - 1, prev, t);
    TermsFewer(f, from, retry - 1, prev, t);
  }

  lemma FirstOfTermEdge(n: Node, index: nat, term: nat)
    requires n.base < index <= LastIndex(n) && TermAt(n, index) == term
    ensures var f := FirstOfTerm(n, index, term); n.base < f && (f == n.base + 1 || TermAt(n, f - 1) != term)
    decreases index
  {
  }

  lemma {:induction false} RoundsInside(s: State, id: NodeId, n: Node, peer: NodeId, f: Node, next: nat, from: nat)
    requires Facing(s, id, n, peer, f) && f.base < next <= LastIndex(n) + 1 && next - 1 <= LastIndex(f) && Shares(s.log[peer], s.log[id], from)
    ensures Rounds(f, n, next) <= |TermsUpTo(f, from, next - 1)|
    decreases next
  {
    hide Facing, Accepts, Retry, TermsUpTo, TermAt, LastOfTerm, FirstOfTerm, Inv, LogView;
    FacingParts(s, id, n, peer, f);
    if n.base < next && !Accepts(f, n, next) {
      RejectedBeyond(s, id, n, peer, f, next, from);
      RetryLower(s, id, n, peer, f, next);
      RetryShape(s, id, n, peer, f, next);
      var retry := Retry(f, n, next);
      RoundsInside(s, id, n, peer, f, retry, from);
      if n.base < retry && !Accepts(f, n, retry) {
        TermLeftBehind(s, id, n, peer, f, next, from);
      } else {
        TermsOnlyBelow(s, peer, f, from, f.base, next - 1, TermAt(f, next - 1));
        TermsFewer(f, from, f.base, next - 1, TermAt(f, next - 1));
      }
    }
  }

  /** Repair takes at most one rejection more than there are Terms among the
      Follower's entries beyond what it shares with the Leader. */
  lemma RoundsBounded(s: State, id: NodeId, n: Node, peer: NodeId, f: Node, next: nat, from: nat)
    requires Facing(s, id, n, peer, f) && f.base < next <= LastIndex(n) + 1 && Shares(s.log[peer], s.log[id], from)
    ensures Rounds(f, n, next) <= 1 + |TermsUpTo(f, from, LastIndex(f))|
  {
    hide Facing, Accepts, Retry, TermsUpTo, TermAt, LastOfTerm, FirstOfTerm, Inv, LogView;
    if next - 1 <= LastIndex(f) {
      RoundsInside(s, id, n, peer, f, next, from);
      TermsMore(f, from, next - 1, LastIndex(f));
    } else if n.base < next && !Accepts(f, n, next) {
      RetryShape(s, id, n, peer, f, next);
      BelowEnd(s, id, n, peer, f);
      RoundsInside(s, id, n, peer, f, LastIndex(f) + 1, from);
    }
  }

  lemma BelowEnd(s: State, id: NodeId, n: Node, peer: NodeId, f: Node)
    requires Facing(s, id, n, peer, f)
    ensures f.base <= LastIndex(f)
  {
  }

  lemma TermsMore(f: Node, from: nat, i: nat, j: nat)
    requires i <= j
    ensures |TermsUpTo(f, from, i)| <= |TermsUpTo(f, from, j)|
  {
    SubsetSize(TermsUpTo(f, from, i), TermsUpTo(f, from, j));
  }

  // ------------------------------------------------------------ acknowledgements

  /** The complete log a Node holds after a step that kept its Snapshot. */
  function Complete(l: seq<Entry>, n: Node): seq<Entry> {
    if n.base <= |l| then l[..n.base] + n.log else n.log
  }

  /** The Leader holds everything the Follower holds, and so acknowledges, after
      the step. */
  predicate AckIsTrue(l: seq<Entry>, leader: seq<Entry>, r: StepResult) {
    Shares(Complete(l, r.node), leader, LastIndex(r.node))
  }

  /** An acknowledgement covers the Follower's whole log. It is true, that is
      the Leader holds every acknowledged entry, exactly when the request reached
      past what both logs share or the Follower's log was a prefix of the
      Leader's to begin with. */
  lemma AckTrueIff(s: State, id: NodeId, n: Node, peer: NodeId, f: Node, next: nat, hs: seq<Write>, m: Message)
    requires Facing(s, id, n, peer, f) && n.base < next <= LastIndex(n) + 1 && Accepts(f, n, next)
    requires m.AppendRequest? && m == Request(n, next, m.requestId, m.readId)
    ensures AckIsTrue(s.log[peer], s.log[id], CurrentAppend(f, hs, id, m)) <==>
              (s.log[peer] <= s.log[id] || !Shares(s.log[peer], s.log[id], next - 1 + |m.entries|))
  {
    hide Inv, LogView, CommitView, Leads, FinishAppend, PlanAppend, EntriesBatch, StoreEntries, AckIsTrue, TermAt, Matches, ConflictHint;
    var l := s.log[peer];
    var plan := PlanAppend(f, next, m.entries);
    AcceptedPlan(s, id, n, peer, f, next);
    if plan.Nothing? {
      NothingLeaves(l, s.log[id], f, hs, id, m);
    } else {
      StoreLeaves(s, id, n, peer, f, next, hs, m);
    }
  }

  lemma WholeShared(l: seq<Entry>, r: seq<Entry>)
    ensures Shares(l, r, |l|) <==> l <= r
  {
    assert l[..|l|] == l;
  }

  lemma AcceptedPlan(s: State, id: NodeId, n: Node, peer: NodeId, f: Node, next: nat)
    requires Facing(s, id, n, peer, f) && n.base < next <= LastIndex(n) + 1 && Accepts(f, n, next)
    ensures var plan, es := PlanAppend(f, next, EntriesBatch(n, next)), EntriesBatch(n, next);
            && peer in s.log && id in s.log && f.base <= |s.log[peer]| && f.log == s.log[peer][f.base..]
            && !plan.Refuse? && PlanIs(s.log[peer], s.log[id], f, next - 1, next - 1 + |es|, plan)
  {
    hide Inv, Settled, IsPeerList, PlanAppend, EntriesBatch;
    TermAtIs(s, id, n, next - 1);
    MatchShares(s, peer, f, n.term, next - 1);
    BatchWithin(s, id, n, next);
    PlanMeaning(s, peer, f, n.term, next - 1, next - 1 + |EntriesBatch(n, next)|);
  }

  lemma FinishKeepsWhole(f: Node, hs: seq<Write>, from: NodeId, m: Message)
    requires m.AppendRequest?
    ensures var r := FinishAppend(f, hs, from, m).node; r.log == f.log && r.base == f.base
  {
    hide ApplyThrough;
    var target := Min(m.leaderCommit, LastIndex(f));
    var n1 := if target > f.commit then f.(commit := target) else f;
    ApplyKeepsWhole(n1, n1.commit);
  }

  lemma NothingLeaves(l: seq<Entry>, leader: seq<Entry>, f: Node, hs: seq<Write>, from: NodeId, m: Message)
    requires m.AppendRequest? && f.base <= |l| && f.log == l[f.base..]
    ensures AckIsTrue(l, leader, FinishAppend(f, hs, from, m)) <==> l <= leader
  {
    hide FinishAppend;
    FinishKeepsWhole(f, hs, from, m);
    assert l[..f.base] + l[f.base..] == l;
    WholeShared(l, leader);
  }

  lemma {:induction false} ApplyKeepsWhole(n: Node, index: nat)
    ensures var r := ApplyThrough(n, index).node; r.log == n.log && r.base == n.base && r.term == n.term
    decreases index - n.lastApplied
  {
    if index <= n.lastApplied || !(n.base <= n.lastApplied < LastIndex(n)) {
      ReadsKeepWhole(n);
    } else {
      ApplyKeepsWhole(ApplyOne(n).node, index);
    }
  }

  lemma {:induction false} ReadsKeepWhole(n: Node)
    ensures var r := CompleteReads(n).node; r.log == n.log && r.base == n.base && r.term == n.term
    decreases |ReadyReads(n)|
  {
    var ready := ReadyReads(n);
    if ready != {} {
      var n' := n.(waiting := n.waiting - {Least(ready)});
      assert ReadyReads(n') == ready - {Least(ready)};
      ReadsKeepWhole(n');
    }
  }

  lemma StoreLeaves(s: State, id: NodeId, n: Node, peer: NodeId, f: Node, next: nat, hs: seq<Write>, m: Message)
    requires Facing(s, id, n, peer, f) && n.base < next <= LastIndex(n) + 1 && Accepts(f, n, next)
    requires m.AppendRequest? && m == Request(n, next, m.requestId, m.readId)
    requires PlanAppend(f, next, m.entries).Store?
    ensures AckIsTrue(s.log[peer], s.log[id], CurrentAppend(f, hs, id, m))
    ensures !Shares(s.log[peer], s.log[id], next - 1 + |m.entries|)
  {
    hide Inv, FinishAppend, PlanAppend, EntriesBatch, Matches, TermAt, StoreEntries, StoreWrites, AckIsTrue, LogView, CommitView, Leads, Planned, ConflictHint;
    AcceptedPlan(s, id, n, peer, f, next);
    var l, r, end := s.log[peer], s.log[id], next - 1 + |m.entries|;
    var from, tail := PlanAppend(f, next, m.entries).truncateFrom, PlanAppend(f, next, m.entries).tail;
    LeadersLog(s, id, n, peer, f);
    StoredLog(s, peer, f, n.term, next - 1, end, from, tail);
    PlanShares(s, peer, f, n.term, next - 1, end, from, tail);
    NotSharedBeyond(l, r, end - |tail| + 1, end);
    SharesLess(l, r, f.base, end - |tail|);
    StoreBase(f, from, tail);
    StoredAck(l, r, StoreEntries(f, from, tail), end, hs + StoreWrites(from, tail), id, m);
  }

  lemma StoreBase(n: Node, from: nat, tail: seq<Entry>)
    ensures StoreEntries(n, from, tail).base == n.base
  {
  }

  lemma LeadersLog(s: State, id: NodeId, n: Node, peer: NodeId, f: Node)
    requires Facing(s, id, n, peer, f)
    ensures n.term in s.tlog && s.tlog[n.term] == s.log[id] && f.base <= f.commit <= |s.log[peer]|
  {
  }

  lemma StoredAck(l: seq<Entry>, leader: seq<Entry>, f: Node, end: nat, writes: seq<Write>, from: NodeId, m: Message)
    requires m.AppendRequest? && f.base <= end <= |leader| && f.log == leader[..end][f.base..] && Shares(l, leader, f.base)
    ensures AckIsTrue(l, leader, FinishAppend(f, writes, from, m))
  {
    hide FinishAppend;
    FinishKeepsWhole(f, writes, from, m);
    assert l[..f.base] == leader[..f.base] == leader[..end][..f.base];
    assert l[..f.base] + f.log == leader[..end];
  }
}
