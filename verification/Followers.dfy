/** A Follower's handling of an AppendRequest keeps the coupling. */
module Followers {
  import opened Types
  import opened Messages
  import opened Node
  import opened Cluster
  import opened Protocol
  import opened ProtocolProofs
  import opened Coupling
  import opened Stability
  import opened Framing
  import opened Effects
  import opened Elections
  import opened FollowerLog
  import Sessions

  /** Every recorded read knows only Terms that have a Leader. */
  ghost predicate AsksOk(g: Ghost) {
    forall k, u :: k in g.asks && u in g.asks[k] ==> u in g.p.tlog
  }

  /** A Follower of the Leader of Term t. */
  ghost predicate Following(g: Ghost, asked: map<ReadKey, nat>, id: NodeId, n: Node, t: nat) {
    && Inv(g.p) && NodeView(g, asked, id, n) && AsksOk(g)
    && n.role == Follower && n.term == t && n.waiting == map[] && t in g.p.tlog
  }

  lemma AsksKept(g: Ghost, g': Ghost, id: NodeId)
    requires AsksOk(g) && GhostEvolves(g, g', id) && g'.asks == g.asks
    ensures AsksOk(g')
  {
  }

  /** Nobody in Term t voted for a Leader of a later Term. */
  lemma InTermStillHere(g: Ghost, v: NodeId, k: ReadKey)
    requires Inv(g.p) && AsksOk(g) && k in g.asks && v in g.p.members && g.p.term[v] == k.term
    ensures StillHere(g.p, v, k.term, g.asks[k])
  {
    forall u | u in g.asks[k] && k.term < u ensures u in g.p.electors && v !in g.p.electors[u] {
      assert LeaderLogOk(g.p, u);
      assert Ballot(v, u) in g.p.voted ==> VoteOk(g.p, Ballot(v, u));
      assert v in g.p.electors[u] ==> VotedFor(g.p, v, u, g.p.ldr[u]);
    }
  }

  /** Recognising a Leader, first moving to its Term when that is later. */
  lemma RecogniseOk(g: Ghost, asked: map<ReadKey, nat>, id: NodeId, n: Node, t: nat, from: NodeId) returns (g': Ghost)
    requires Ready(g, asked, id, n) && AsksOk(g) && n.term <= t && t in g.p.tlog && t in g.p.ldr && g.p.ldr[t] == from && from != id
    ensures GhostEvolves(g, g', id) && g'.asks == g.asks && Following(g', asked, id, Recognise(n, t, from), t)
    ensures g'.p.members == g.p.members && g'.p.tlog == g.p.tlog && g'.p.log == g.p.log
  {
    hide Inv, GhostEvolves;
    g' := g;
    GhostSame(g, id);
    var n' := Recognise(n, t, from);
    if n.term < t {
      g' := BecomeFollowerOk(g, asked, id, n, t, from);
      QuietView(g', asked, id, n');
    } else {
      QuietView(g', asked, id, n');
    }
  }

  // ------------------------------------------------------------------- replies

  lemma ReplyOk(g: Ghost, limit: int, id: NodeId, image: Sessions.Machine, to: NodeId, m: Message)
    requires m.AppendReply? && id in g.p.members && to in g.p.members && to != id && AppendReplyView(g, id, to, m)
    ensures ActionsOk(g, limit, id, image, [Send(to, m)])
  {
    assert ActionOk(g, limit, id, image, Send(to, m));
  }

  /** A request from an earlier Term is turned down with no hint at all. */
  lemma StaleReplyOk(g: Ghost, limit: int, id: NodeId, n: Node, image: Sessions.Machine, from: NodeId, requestId: nat, readId: nat)
    requires id in g.p.members && from in g.p.members && from != id
    ensures ActionsOk(g, limit, id, image, [Reply(n, from, requestId, false, Hint(0, 0), readId)])
  {
    ReplyOk(g, limit, id, image, from, Reply(n, from, requestId, false, Hint(0, 0), readId).msg);
  }

  lemma HintedReplyOk(g: Ghost, asked: map<ReadKey, nat>, limit: int, id: NodeId, n: Node, image: Sessions.Machine, from: NodeId, m: Message, h: Hint)
    requires m.AppendRequest? && Following(g, asked, id, n, m.term) && AppendRequestView(g, from, id, m) && from in g.p.members && from != id
    requires HintOk(g.p, id, m.term, h) && h.index > 0
    ensures ActionsOk(g, limit, id, image, [ResetElectionTimer, Reply(n, from, m.requestId, false, h, m.readId)])
  {
    var reply := Reply(n, from, m.requestId, false, h, m.readId);
    if m.readId != 0 { InTermStillHere(g, id, ReadKey(from, m.term, m.readId)); }
    hide Inv, NodeView;
    assert AppendReplyView(g, id, from, reply.msg);
    ReplyOk(g, limit, id, image, from, reply.msg);
    ShowOk(g, limit, id, image, ResetElectionTimer);
    ActionsConcat(g, limit, id, image, [ResetElectionTimer], [reply]);
  }

  lemma HintPositive(n: Node, index: nat)
    ensures ConflictHint(n, index).index > 0
  {
    if 0 < index <= LastIndex(n) && n.base < index { FirstOfTermIs(n, index, TermAt(n, index)); }
  }

  /** Turning down a position the Node does not hold. */
  lemma MismatchOk(g: Ghost, asked: map<ReadKey, nat>, limit: int, id: NodeId, n: Node, image: Sessions.Machine, from: NodeId, m: Message)
    requires m.AppendRequest? && Following(g, asked, id, n, m.term) && AppendRequestView(g, from, id, m) && from in g.p.members && from != id
    requires !Matches(n, m.prevIndex, m.prevTerm)
    ensures ActionsOk(g, limit, id, image, [ResetElectionTimer, Reply(n, from, m.requestId, false, ConflictHint(n, m.prevIndex), m.readId)])
  {
    MismatchHint(g.p, id, n, m.term, m.prevIndex);
    HintPositive(n, m.prevIndex);
    HintedReplyOk(g, asked, limit, id, n, image, from, m, ConflictHint(n, m.prevIndex));
  }

  lemma MismatchHint(s: State, id: NodeId, n: Node, t: nat, prev: nat)
    requires Inv(s) && LogView(s, id, n) && CommitView(s, id, n) && t in s.tlog && n.term == t && prev <= |s.tlog[t]|
    requires !Matches(n, prev, TermOf(s.tlog[t], prev)) && Above(s, id, t, prev + 1)
    ensures HintOk(s, id, t, ConflictHint(n, prev))
  {
    var l, r := s.log[id], s.tlog[t];
    SettledLeader(s, t, l, n.commit, t);
    LastTermIs(s, id, n);
    if prev <= n.base {
      SharesLess(l, r, n.base, n.commit);
      SharesLess(l, r, prev, n.base);
      assert TermOf(l, n.base) == TermOf(r, n.base);
      if prev < n.base {
        SharesLess(l, r, prev + 1, n.base);
        AboveMeans(s, id, t, prev + 1);
      }
    } else {
      if prev <= LastIndex(n) { TermAtIs(s, id, n, prev); }
      HintSound(s, id, n, t, prev);
    }
  }

  /** Refusing happens only below the Snapshot, where the Node is in step. */
  lemma RefuseOk(g: Ghost, asked: map<ReadKey, nat>, limit: int, id: NodeId, n: Node, image: Sessions.Machine, from: NodeId, m: Message)
    requires m.AppendRequest? && Following(g, asked, id, n, m.term) && AppendRequestView(g, from, id, m) && from in g.p.members && from != id
    requires Matches(n, m.prevIndex, m.prevTerm) && m.prevIndex + 1 < n.base
    ensures ActionsOk(g, limit, id, image, [ResetElectionTimer, Reply(n, from, m.requestId, false, ConflictHint(n, m.prevIndex + 1), m.readId)])
  {
    var s, t, l := g.p, m.term, g.p.log[id];
    SettledLeader(s, t, l, n.commit, t);
    SharesLess(l, s.tlog[t], m.prevIndex + 1, n.commit);
    AboveMeans(s, id, t, m.prevIndex + 1);
    HintPositive(n, m.prevIndex + 1);
    HintedReplyOk(g, asked, limit, id, n, image, from, m, ConflictHint(n, m.prevIndex + 1));
  }

  // ------------------------------------------------------------------ accepting

  /** A Follower in step commits what its Leader has committed of its log. */
  lemma FollowerCommitOk(g: Ghost, asked: map<ReadKey, nat>, id: NodeId, n: Node, t: nat, leaderCommit: nat)
    requires Following(g, asked, id, n, t) && Synced(g.p, id, t) && Settled(g.p, t, g.p.tlog[t], leaderCommit)
    ensures var target := Min(leaderCommit, LastIndex(n));
            Following(g, asked, id, if target > n.commit then n.(commit := target) else n, t)
  {
    var s, l := g.p, g.p.log[id];
    var target := Min(leaderCommit, LastIndex(n));
    SettledLess(s, t, s.tlog[t], leaderCommit, target);
    LastTermIs(s, id, n);
    if target > n.commit {
      var p :| p in s.commits && SettledBy(s, t, s.tlog[t], target, p);
      assert l[..target] == s.tlog[t][..target];
      assert SettledBy(s, t, l, target, p);
      QuietView(g, asked, id, n.(commit := target));
    }
  }

  /** Acknowledging the whole log of a Follower in step. */
  lemma AckWholeOk(g: Ghost, asked: map<ReadKey, nat>, id: NodeId, n: Node, t: nat) returns (g': Ghost)
    requires Following(g, asked, id, n, t) && Synced(g.p, id, t)
    ensures GhostEvolves(g, g', id) && g'.asks == g.asks && Following(g', asked, id, n, t) && Synced(g'.p, id, t)
    ensures LastIndex(n) <= Acked(g'.p, id, t) && g'.p.tlog == g.p.tlog && g'.p.members == g.p.members
  {
    var s, k := g.p, LastIndex(n);
    LastTermIs(s, id, n);
    assert Shares(s.log[id], s.tlog[t], k);
    AckEvolves(s, id, t, k);
    g' := g.(p := Ack(s, id, t, k));
    hide Inv, Frame, Promises;
    CommitMoved(s, g'.p, id, n, n);
    QuietView(g', asked, id, n);
  }

  lemma AckReplyOk(g: Ghost, asked: map<ReadKey, nat>, limit: int, id: NodeId, n: Node, image: Sessions.Machine, from: NodeId, m: Message, reply: Message)
    requires m.AppendRequest? && Following(g, asked, id, n, m.term) && Synced(g.p, id, m.term) && LastIndex(n) <= Acked(g.p, id, m.term)
    requires from in g.p.members && from != id && (m.readId != 0 ==> ReadKey(from, m.term, m.readId) in g.asks)
    requires reply == AppendReply(m.term, m.requestId, true, LastIndex(n), 0, 0, m.readId)
    ensures ActionsOk(g, limit, id, image, [Send(from, reply)])
  {
    if m.readId != 0 { InTermStillHere(g, id, ReadKey(from, m.term, m.readId)); }
    hide Inv, NodeView;
    assert AppendReplyView(g, id, from, reply);
    ReplyOk(g, limit, id, image, from, reply);
  }

  lemma FinishOk(g: Ghost, asked: map<ReadKey, nat>, limit: int, id: NodeId, n: Node, image: Sessions.Machine, writes: seq<Write>, from: NodeId, m: Message) returns (g': Ghost)
    requires m.AppendRequest? && Following(g, asked, id, n, m.term) && Synced(g.p, id, m.term) && from in g.p.members && from != id
    requires Settled(g.p, m.term, g.p.tlog[m.term], m.leaderCommit)
    requires m.readId != 0 ==> ReadKey(from, m.term, m.readId) in g.asks
    ensures Done(g, g', asked, limit, id, image, FinishAppend(n, writes, from, m))
  {
    hide Inv, GhostEvolves, NodeView, ActionsOk, Settled, Synced, AsksOk;
    var target := Min(m.leaderCommit, LastIndex(n));
    var n1 := if target > n.commit then n.(commit := target) else n;
    FollowerCommitOk(g, asked, id, n, m.term, m.leaderCommit);
    g' := AckWholeOk(g, asked, id, n1, m.term);
    ApplyThroughOk(g', asked, limit, id, n1, image, n1.commit);
    var applied := ApplyThrough(n1, n1.commit);
    var reply := Reply(n, from, m.requestId, true, Hint(0, 0), m.readId);
    AckReplyOk(g', asked, limit, id, n1, image, from, m, reply.msg);
    ShowOk(g', limit, id, image, ResetElectionTimer);
    ActionsConcat(g', limit, id, image, [ResetElectionTimer], applied.actions);
    ActionsConcat(g', limit, id, image, [ResetElectionTimer] + applied.actions, [reply]);
  }

  /** Replacing the log after the shared part by the Leader's, up to any point,
      leaves the Follower in step. */
  lemma StoreUpTo(g: Ghost, asked: map<ReadKey, nat>, id: NodeId, n: Node, t: nat, b: nat, j: nat) returns (g': Ghost)
    requires Following(g, asked, id, n, t) && n.commit <= b <= j <= |g.p.tlog[t]| && n.base <= j
    requires Shares(g.p.log[id], g.p.tlog[t], b) && !Shares(g.p.log[id], g.p.tlog[t], b + 1)
    ensures GhostEvolves(g, g', id) && g'.asks == g.asks && Synced(g'.p, id, t)
    ensures Following(g', asked, id, n.(log := g.p.tlog[t][..j][n.base..]), t)
    ensures g'.p.tlog == g.p.tlog && g'.p.members == g.p.members && g'.p.commits == g.p.commits && g'.p.log[id] == g.p.tlog[t][..j]
  {
    hide Inv, Frame, Promises, NodeView, AsksOk;
    FollowingParts(g, asked, id, n, t);
    var s, n' := g.p, n.(log := g.p.tlog[t][..j][n.base..]);
    NotSharedBeyond(s.log[id], s.tlog[t], b + 1, j + 1);
    AcceptEvolves(s, id, t, j);
    g' := g.(p := Accept(s, id, t, j));
    SharesLess(s.log[id], s.tlog[t], n.commit, b);
    SharesLess(s.log[id], s.tlog[t], n.base, b);
    AcceptSettled(s, id, n, t, j);
    AcceptedLog(s, id, n, t, j);
    QuietView(g', asked, id, n');
    AsksKept(g, g', id);
  }

  lemma FollowingParts(g: Ghost, asked: map<ReadKey, nat>, id: NodeId, n: Node, t: nat)
    requires Following(g, asked, id, n, t)
    ensures LogView(g.p, id, n) && CommitView(g.p, id, n)
  {
  }

  lemma AcceptedLog(s: State, id: NodeId, n: Node, t: nat, j: nat)
    requires LogView(s, id, n) && t in s.tlog && n.base <= j <= |s.tlog[t]| && Shares(s.log[id], s.tlog[t], n.base)
    ensures LogView(Accept(s, id, t, j), id, n.(log := s.tlog[t][..j][n.base..]))
  {
    hide IsPeerList;
    if n.base > 0 { assert s.log[id][n.base - 1] == s.log[id][..n.base][n.base - 1] == s.tlog[t][..n.base][n.base - 1]; }
  }

  /** Storing entries leaves the Follower in step with its Leader. */
  lemma StoreOk(g: Ghost, asked: map<ReadKey, nat>, id: NodeId, n: Node, t: nat, p: nat, q: nat, truncateFrom: nat, tail: seq<Entry>) returns (g': Ghost)
    requires Following(g, asked, id, n, t)
    requires PlanIs(g.p.log[id], g.p.tlog[t], n, p, q, Store(truncateFrom, tail))
    ensures GhostEvolves(g, g', id) && g'.asks == g.asks && Following(g', asked, id, StoreEntries(n, truncateFrom, tail), t) && Synced(g'.p, id, t)
    ensures g'.p.tlog == g.p.tlog && g'.p.members == g.p.members && g'.p.commits == g.p.commits
  {
    hide Inv, GhostEvolves, NodeView, AsksOk;
    FollowingParts(g, asked, id, n, t);
    StoredLog(g.p, id, n, t, p, q, truncateFrom, tail);
    PlanShares(g.p, id, n, t, p, q, truncateFrom, tail);
    g' := StoreUpTo(g, asked, id, n, t, q - |tail|, q);
  }

  lemma PlanShares(s: State, id: NodeId, n: Node, t: nat, p: nat, q: nat, truncateFrom: nat, tail: seq<Entry>)
    requires LogView(s, id, n) && CommitView(s, id, n) && t in s.tlog && PlanIs(s.log[id], s.tlog[t], n, p, q, Store(truncateFrom, tail))
    ensures var b := q - |tail|; n.commit <= b <= q && Shares(s.log[id], s.tlog[t], b) && !Shares(s.log[id], s.tlog[t], b + 1)
  {
    var l, r, b := s.log[id], s.tlog[t], q - |tail|;
    assert Planned(l, Store(truncateFrom, tail))[..b] == l[..b] == r[..q][..b] == r[..b];
  }

  lemma NotSharedBeyond(l: seq<Entry>, r: seq<Entry>, m: nat, n: nat)
    requires !Shares(l, r, m) && m <= n
    ensures !Shares(l, r, n)
  {
    if Shares(l, r, n) { SharesLess(l, r, m, n); }
  }

  lemma StoredLog(s: State, id: NodeId, n: Node, t: nat, p: nat, q: nat, truncateFrom: nat, tail: seq<Entry>)
    requires LogView(s, id, n) && CommitView(s, id, n) && t in s.tlog && n.term == t
    requires PlanIs(s.log[id], s.tlog[t], n, p, q, Store(truncateFrom, tail))
    ensures var n' := StoreEntries(n, truncateFrom, tail);
            n.base <= q && n'.log == s.tlog[t][..q][n.base..] && TermOf(s.tlog[t][..q], n.base) == n.baseTerm
  {
    hide LogView, CommitView, PlanIs, TermOf;
    StoredParts(s, id, n, t, p, q, truncateFrom, tail);
    StoredSuffix(s.log[id], s.tlog[t], n.base, q, truncateFrom, tail);
  }

  lemma StoredParts(s: State, id: NodeId, n: Node, t: nat, p: nat, q: nat, truncateFrom: nat, tail: seq<Entry>)
    requires LogView(s, id, n) && CommitView(s, id, n) && t in s.tlog
    requires PlanIs(s.log[id], s.tlog[t], n, p, q, Store(truncateFrom, tail))
    ensures id in s.log &&
            var l := s.log[id];
            && n.base <= |l| && n.log == l[n.base..] && n.baseTerm == TermOf(l, n.base)
            && q <= |s.tlog[t]| && (truncateFrom == 0 || n.base < truncateFrom <= |l|)
            && (if truncateFrom == 0 then l else l[..truncateFrom - 1]) + tail == s.tlog[t][..q]
  {
    hide Settled, IsPeerList, TermOf, Shares;
  }

  lemma StoredSuffix(l: seq<Entry>, r: seq<Entry>, base: nat, q: nat, from: nat, tail: seq<Entry>)
    requires base <= |l| && q <= |r| && (from == 0 || base < from <= |l|)
    requires (if from == 0 then l else l[..from - 1]) + tail == r[..q]
    ensures base <= q && (if from == 0 then l[base..] else l[base..][..from - base - 1]) + tail == r[..q][base..]
    ensures TermOf(r[..q], base) == TermOf(l, base)
  {
    if from == 0 {
      assert (l + tail)[base..] == l[base..] + tail;
    } else {
      assert l[base..][..from - base - 1] == l[..from - 1][base..];
      assert (l[..from - 1] + tail)[base..] == l[..from - 1][base..] + tail;
    }
  }

  lemma AcceptSettled(s: State, id: NodeId, n: Node, t: nat, q: nat)
    requires CommitView(s, id, n) && CanAccept(s, id, t, q) && n.term == t && n.commit <= q && Shares(s.log[id], s.tlog[t], n.commit)
    ensures Settled(Accept(s, id, t, q), t, s.tlog[t][..q], n.commit)
  {
    if n.commit > 0 {
      var p :| p in s.commits && SettledBy(s, t, s.log[id], n.commit, p);
      assert s.tlog[t][..q][..n.commit] == s.tlog[t][..n.commit];
      assert SettledBy(Accept(s, id, t, q), t, s.tlog[t][..q], n.commit, p);
    }
  }

  /** What the plan for this request amounts to. */
  lemma PlanFacts(g: Ghost, asked: map<ReadKey, nat>, id: NodeId, n: Node, from: NodeId, m: Message)
    requires m.AppendRequest? && Following(g, asked, id, n, m.term) && AppendRequestView(g, from, id, m)
    requires Matches(n, m.prevIndex, m.prevTerm)
    ensures var plan := PlanAppend(n, m.prevIndex + 1, m.entries);
            && PlanIs(g.p.log[id], g.p.tlog[m.term], n, m.prevIndex, m.prevIndex + |m.entries|, plan)
            && (plan.Nothing? ==> Synced(g.p, id, m.term))
            && (plan.Refuse? ==> m.prevIndex + 1 < n.base)
  {
    var s, t, p, q := g.p, m.term, m.prevIndex, m.prevIndex + |m.entries|;
    MatchShares(s, id, n, t, p);
    PlanMeaning(s, id, n, t, p, q);
    if PlanAppend(n, p + 1, m.entries).Nothing? {
      NothingNewSyncs(s, id, n, t, p, q);
    }
  }

  lemma StoreThenFinish(g: Ghost, asked: map<ReadKey, nat>, limit: int, id: NodeId, n: Node, image: Sessions.Machine, hs: seq<Write>, from: NodeId, m: Message, truncateFrom: nat, tail: seq<Entry>) returns (g': Ghost)
    requires m.AppendRequest? && Following(g, asked, id, n, m.term) && AppendRequestView(g, from, id, m) && from in g.p.members && from != id
    requires PlanIs(g.p.log[id], g.p.tlog[m.term], n, m.prevIndex, m.prevIndex + |m.entries|, Store(truncateFrom, tail))
    ensures Done(g, g', asked, limit, id, image, FinishAppend(StoreEntries(n, truncateFrom, tail), hs + StoreWrites(truncateFrom, tail), from, m))
  {
    var g1 := StoreOk(g, asked, id, n, m.term, m.prevIndex, m.prevIndex + |m.entries|, truncateFrom, tail);
    assert Settled(g1.p, m.term, g1.p.tlog[m.term], m.leaderCommit) by { SettledSame(g.p, g1.p, m.term, g.p.tlog[m.term], m.leaderCommit); }
    hide Inv, GhostEvolves, NodeView, ActionsOk, Settled;
    g' := FinishOk(g1, asked, limit, id, StoreEntries(n, truncateFrom, tail), image, hs + StoreWrites(truncateFrom, tail), from, m);
    GhostTrans(g, g1, g', id);
  }

  lemma SettledSame(s: State, s': State, t: nat, log: seq<Entry>, k: nat)
    requires Settled(s, t, log, k) && s'.commits == s.commits && s'.tlog == s.tlog
    ensures Settled(s', t, log, k)
  {
    if k > 0 {
      var p :| p in s.commits && SettledBy(s, t, log, k, p);
      assert SettledBy(s', t, log, k, p);
    }
  }

  lemma RequestFacts(g: Ghost, asked: map<ReadKey, nat>, id: NodeId, n: Node, from: NodeId, m: Message)
    requires NodeView(g, asked, id, n) && m.AppendRequest? && AppendRequestView(g, from, id, m)
    ensures id in g.p.members && m.term in g.p.tlog && m.term in g.p.ldr && g.p.ldr[m.term] == from
  {
  }

  lemma AppendRequestOk(g: Ghost, asked: map<ReadKey, nat>, limit: int, id: NodeId, n: Node, image: Sessions.Machine, from: NodeId, m: Message) returns (g': Ghost)
    requires Ready(g, asked, id, n) && AsksOk(g) && m.AppendRequest? && AppendRequestView(g, from, id, m) && from in g.p.members && from != id
    ensures Done(g, g', asked, limit, id, image, OnAppendRequest(n, from, m))
  {
    hide Inv, GhostEvolves, NodeView, ActionsOk, AppendRequestView, CurrentAppend, AsksOk;
    RequestFacts(g, asked, id, n, from, m);
    if m.term < n.term {
      g' := g;
      GhostSame(g, id);
      StaleReplyOk(g, limit, id, n, image, from, m.requestId, m.readId);
    } else {
      var n1 := Recognise(n, m.term, from);
      var g1 := RecogniseOk(g, asked, id, n, m.term, from);
      AppendRequestStable(g, g1, id, from, id, m);
      g' := CurrentAppendOk(g1, asked, limit, id, n1, image, HardStateIf(m.term > n.term, n1), from, m);
      GhostTrans(g, g1, g', id);
    }
  }

  lemma CurrentAppendOk(g: Ghost, asked: map<ReadKey, nat>, limit: int, id: NodeId, n: Node, image: Sessions.Machine, hs: seq<Write>, from: NodeId, m: Message) returns (g': Ghost)
    requires m.AppendRequest? && Following(g, asked, id, n, m.term) && AppendRequestView(g, from, id, m) && from in g.p.members && from != id
    ensures Done(g, g', asked, limit, id, image, CurrentAppend(n, hs, from, m))
  {
    hide Inv, GhostEvolves, NodeView, ActionsOk, AsksOk, PlanIs, Above, Settled;
    g' := g;
    GhostSame(g, id);
    if !Matches(n, m.prevIndex, m.prevTerm) {
      MismatchOk(g, asked, limit, id, n, image, from, m);
    } else {
      PlanFacts(g, asked, id, n, from, m);
      match PlanAppend(n, m.prevIndex + 1, m.entries)
      case Refuse => RefuseOk(g, asked, limit, id, n, image, from, m);
      case Nothing => g' := FinishOk(g, asked, limit, id, n, image, hs, from, m);
      case Store(truncateFrom, tail) => g' := StoreThenFinish(g, asked, limit, id, n, image, hs, from, m, truncateFrom, tail);
    }
  }
}
