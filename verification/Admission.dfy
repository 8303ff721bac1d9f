/** In every run the WAL accepts every write the core asks for, and every message
    that arrives is one the runtime step is meant for. */
module Admission {
  import opened Types
  import opened Messages
  import opened Node
  import opened Cluster
  import opened Protocol
  import opened ProtocolProofs
  import opened Coupling
  import opened Effects
  import opened FollowerLog
  import opened Snapshots
  import opened Steps
  import opened Crashes
  import opened Durability
  import opened Machines
  import opened Refinement
  import opened WalReplay
  import opened WalHistory
  import opened RaftNode
  import opened Runtime
  import Sessions

  predicate InOrder(n: Node) { Sound(n) && WellIndexed(n.log, n.base) }

  lemma OneAccepted(d: Durable, w: Write)
    ensures Accepted(d, [w]) <==> CanWrite(d, w)
  {
    assert [w][1..] == [];
    assert Accepted(ApplyWrite(d, w), []);
  }

  // ------------------------------------------------------------- pure handlers

  lemma HardAccepted(n: Node, term: nat, votedFor: NodeId)
    requires n.term < term || (n.term == term && n.votedFor == "")
    ensures Accepted(DurableOf(n), [SaveHardState(term, votedFor)])
  {
    OneAccepted(DurableOf(n), SaveHardState(term, votedFor));
  }

  lemma VotingAccepted(n: Node, from: NodeId, m: Message)
    requires m.PreVoteRequest? || m.PreVoteReply? || m.VoteRequest? || m.VoteReply?
    ensures Accepted(DurableOf(n), OnReceive(n, from, m).writes)
  {
    hide SendAll;
    match m
    case PreVoteRequest(_, _, _) =>
    case PreVoteReply(_, current, _) =>
      if current > n.term { HardAccepted(n, current, ""); } else { HardAccepted(n, n.term + 1, n.id); }
    case VoteRequest(term, _, _) =>
      var r := OnVoteRequest(n, from, m);
      if term > n.term || n.votedFor == "" { if r.node.term >= n.term { HardAccepted(n, Max(term, n.term), r.node.votedFor); } }
    case VoteReply(term, _) =>
      if term > n.term { HardAccepted(n, term, ""); }
      var noop := FirstEntry(n);
      OneAccepted(DurableOf(n), Append(noop));
  }

  lemma LocalAccepted(n: Node, ev: Event)
    requires ev.ElectionTimeout? || ev.HeartbeatTimeout? || ev.CheckQuorumTimeout? || ev.ConfirmRead? || ev.AppendFailed?
             || ev.ProposeSession? || ev.ProposeSet? || ev.ProposeDelete?
    ensures Accepted(DurableOf(n), Step(n, ev).writes)
  {
    hide SendAll, Broadcast;
    var index := LastIndex(n) + 1;
    match ev
    case ElectionTimeout => HardAccepted(n, n.term + 1, n.id);
    case ProposeSession(_, kind, session) => OneAccepted(DurableOf(n), Append(Entry(index, n.term, kind, session, 0, [], [])));
    case ProposeSet(_, session, sequence, key, value) => OneAccepted(DurableOf(n), Append(Entry(index, n.term, SetKey, session, sequence, key, value)));
    case ProposeDelete(_, session, sequence, key) => OneAccepted(DurableOf(n), Append(Entry(index, n.term, DeleteKey, session, sequence, key, [])));
    case _ =>
  }

  lemma ReplyAccepted(n: Node, from: NodeId, m: Message)
    requires InOrder(n) && (m.AppendReply? || m.SnapshotReply?)
    ensures Accepted(DurableOf(n), OnReceive(n, from, m).writes)
  {
    hide SendAll, SendTo, AckRead, ApplyThrough, NoteReply, LeaderCommit, PendingReadFor;
    if m.term > n.term { HardAccepted(n, m.term, ""); }
    if m.AppendReply? {
      var n1 := NoteReply(n, from, m);
      NoteReplyVolatile(n, from, m);
      LeaderCommitRange(n1, LastIndex(n1));
      OneAccepted(DurableOf(n), SaveCommit(LeaderCommit(n1, LastIndex(n1))));
    }
  }

  /** A Follower's append: the new Term, the truncation, the entries, the commit. */
  lemma AppendAccepted(n: Node, from: NodeId, m: Message)
    requires InOrder(n) && m.AppendRequest? && Contiguous(m.entries)
    ensures Accepted(DurableOf(n), OnAppendRequest(n, from, m).writes)
  {
    hide Recognise, HardStateIf, CurrentAppend;
    if n.term <= m.term {
      var n1 := Recognise(n, m.term, from);
      var hs := HardStateIf(m.term > n.term, n1);
      RecogniseKeeps(n, m.term, from);
      RecogniseCovers(n, m.term, from);
      assert Accepted(DurableOf(n), hs) by { if m.term > n.term { HardStateShape(m.term > n.term, n1); HardAccepted(n, n1.term, n1.votedFor); } else { HardStateShape(false, n1); } }
      CurrentAccepted(n1, from, m);
      CurrentSplits(n1, hs, from, m);
      HistoryConcat(DurableOf(n), hs, CurrentAppend(n1, [], from, m).writes);
      LiveIsApply(DurableOf(n), hs);
    }
  }

  lemma HardStateShape(raised: bool, n: Node)
    ensures HardStateIf(raised, n) == if raised then [SaveHardState(n.term, n.votedFor)] else []
  {
  }

  lemma CurrentSplits(n: Node, hs: seq<Write>, from: NodeId, m: Message)
    requires m.AppendRequest?
    ensures CurrentAppend(n, hs, from, m).writes == hs + CurrentAppend(n, [], from, m).writes
  {
    hide PlanAppend, Matches, ConflictHint, StoreEntries, StoreWrites, FinishAppend;
    match PlanAppend(n, m.prevIndex + 1, m.entries)
    case Store(truncateFrom, tail) =>
      var n', w := StoreEntries(n, truncateFrom, tail), StoreWrites(truncateFrom, tail);
      FinishWrites(n', hs, w, from, m);
      assert [] + w == w;
    case Nothing =>
      FinishWrites(n, hs, [], from, m);
      assert hs + [] == hs;
    case Refuse => assert hs + [] == hs;
  }

  lemma CurrentAccepted(n: Node, from: NodeId, m: Message)
    requires InOrder(n) && m.AppendRequest? && Contiguous(m.entries)
    ensures Accepted(DurableOf(n), CurrentAppend(n, [], from, m).writes)
  {
    hide PlanAppend, Matches, ConflictHint, StoreEntries, StoreWrites, FinishAppend;
    match PlanAppend(n, m.prevIndex + 1, m.entries)
    case Refuse =>
    case Nothing => FinishAccepted(n, from, m);
    case Store(truncateFrom, tail) =>
      PlanIndexed(n, m.prevIndex + 1, m.entries);
      PlanAboveCommit(n, m.prevIndex + 1, m.entries);
      var n', w := StoreEntries(n, truncateFrom, tail), StoreWrites(truncateFrom, tail);
      StoreAccepted(DurableOf(n), truncateFrom, tail);
      StoreWritten(n, truncateFrom, tail);
      LiveIsApply(DurableOf(n), w);
      FinishAccepted(n', from, m);
      FinishWrites(n', w, [], from, m);
      assert w + [] == w && [] + w == w;
      HistoryConcat(DurableOf(n), w, FinishAppend(n', [], from, m).writes);
  }

  lemma StoreAccepted(d: Durable, truncateFrom: nat, tail: seq<Entry>)
    requires truncateFrom != 0 ==> d.commit < truncateFrom <= Last(d) && d.base <= d.commit
    requires WellIndexed(tail, if truncateFrom != 0 then truncateFrom - 1 else Last(d))
    ensures Accepted(d, StoreWrites(truncateFrom, tail))
  {
    StoreShape(truncateFrom, tail, []);
    assert Appends(tail) + [] == Appends(tail);
    if truncateFrom != 0 {
      AcceptedFirst(d, Truncate(truncateFrom), Appends(tail));
      AcceptedAppends(ApplyWrite(d, Truncate(truncateFrom)), tail, []);
    } else {
      AcceptedAppends(d, tail, []);
    }
  }

  lemma FinishAccepted(n: Node, from: NodeId, m: Message)
    requires Sound(n) && m.AppendRequest?
    ensures Accepted(DurableOf(n), FinishAppend(n, [], from, m).writes)
  {
    hide ApplyThrough;
    var target := Min(m.leaderCommit, LastIndex(n));
    OneAccepted(DurableOf(n), SaveCommit(target));
    assert [] + [SaveCommit(target)] == [SaveCommit(target)];
  }

  lemma TransferAccepted(n: Node, from: NodeId, m: Message, st: Staged)
    requires InOrder(n) && m.SnapshotRequest? && KeepsCommitted(n, m, st) && (m.index > 0 ==> 0 < m.snapTerm)
    ensures Accepted(DurableOf(n), OnSnapshotRequest(n, from, m, st).writes)
  {
    hide Recognise, HardStateIf, Install, TermAt;
    if n.term <= m.term {
      var n1 := Recognise(n, m.term, from);
      var hs := HardStateIf(m.term > n.term, n1);
      RecogniseKeeps(n, m.term, from);
      RecogniseCovers(n, m.term, from);
      HardStateShape(m.term > n.term, n1);
      if m.term > n.term { HardAccepted(n, n1.term, n1.votedFor); }
      LiveIsApply(DurableOf(n), hs);
      var keep := m.index <= LastIndex(n1) && TermAt(n1, m.index) == m.snapTerm;
      HistoryConcat(DurableOf(n), hs, [Checkpoint(m.index, m.snapTerm, keep)]);
      if st.success && st.done && m.index > n.base {
        SameTermAt(n, n1, m.index);
        OneAccepted(DurableOf(n1), Checkpoint(m.index, m.snapTerm, keep));
      }
    }
  }

  // ------------------------------------------------------------------- every run

  lemma NodeInOrder(g: Ghost, asked: map<ReadKey, nat>, id: NodeId, n: Node)
    requires Inv(g.p) && NodeView(g, asked, id, n)
    ensures InOrder(n)
  {
    NodeSound(g, asked, id, n);
    assert NodeLogOk(g.p, id);
  }

  lemma SliceContiguous(log: seq<Entry>, i: nat, j: nat)
    requires WellIndexed(log, 0) && i <= j <= |log|
    ensures Contiguous(log[i..j])
  {
  }

  lemma RequestAdmissible(g: Ghost, from: NodeId, to: NodeId, m: Message)
    requires Inv(g.p) && m.AppendRequest? && AppendRequestView(g, from, to, m)
    ensures Contiguous(m.entries)
  {
    assert LeaderLogOk(g.p, m.term);
    SliceContiguous(g.p.tlog[m.term], m.prevIndex, m.prevIndex + |m.entries|);
  }

  lemma TransferAdmissible(g: Ghost, asked: map<ReadKey, nat>, limit: int, id: NodeId, n: Node, from: NodeId, m: Message, st: Staged, image: Sessions.Machine)
    requires Inv(g.p) && NodeView(g, asked, id, n) && m.SnapshotRequest? && SnapshotRequestView(g, limit, from, id, m, image)
    ensures KeepsCommitted(n, m, st) && (m.index > 0 ==> 0 < m.snapTerm)
  {
    var s := g.p;
    assert LeaderLogOk(s, m.term);
    if m.index > 0 { TermPositive(s, s.tlog[m.term], m.index - 1); }
    if n.term <= m.term && m.index > n.base && m.index < n.commit {
      SettledLeader(s, n.term, s.log[id], n.commit, m.term);
      SharesLess(s.log[id], s.tlog[m.term], m.index, n.commit);
      KeepsIffShares(s, id, n, m);
    }
  }

  lemma CompactionAccepted(g: Ghost, asked: map<ReadKey, nat>, id: NodeId, n: Node)
    requires Inv(g.p) && NodeView(g, asked, id, n)
    ensures Accepted(DurableOf(n), OnCompacted(n, n.lastApplied, TermAt(n, n.lastApplied)).writes)
  {
    NodeSound(g, asked, id, n);
    var k := n.lastApplied;
    if CanCompact(n, k, TermAt(n, k)) {
      assert NodeLogOk(g.p, id);
      TermAtIs(g.p, id, n, k);
      TermPositive(g.p, g.p.log[id], k - 1);
      OneAccepted(DurableOf(n), Checkpoint(k, TermAt(n, k), true));
    }
  }

  /** Whatever happens to a Node of a coupled Cluster, the runtime step applies to
      it and the WAL takes every write of that step. */
  lemma CoupledAccepts(c: Cluster, g: Ghost, id: NodeId, stim: Stimulus)
    requires Coupled(c, g) && Enabled(c, id, stim)
    ensures var n := c.hosts[id].node;
            && Accepted(DurableOf(n), Step(n, EventOf(n, stim)).writes)
            && Admissible(n, EventOf(n, stim))
  {
    hide Coupled, Inv, NodeView, PacketView, AppendRequestView, SnapshotRequestView, Accepted, Contiguous, InOrder;
    var n := c.hosts[id].node;
    CoupledNode(c, g, id);
    NodeInOrder(g, c.asked, id, n);
    match stim
    case Local(ev) =>
      hide Step;
      LocalAccepted(n, ev);
    case Compaction => CompactionAccepted(g, c.asked, id, n);
    case Chunk(p, st) =>
      ChunkFacts(c, g, p);
      TransferAdmissible(g, c.asked, c.limit, id, n, p.from, p.msg, st, p.image);
      hide OnSnapshotRequest, KeepsCommitted;
      TransferAccepted(n, p.from, p.msg, st);
    case Message(p) =>
      hide OnReceive, AppendFits;
      MessageAccepted(c, g, n, p);
      if p.msg.AppendRequest? { ContiguousFits(n, p.msg); }
  }

  lemma CoupledNode(c: Cluster, g: Ghost, id: NodeId)
    requires Coupled(c, g) && id in c.hosts
    ensures Inv(g.p) && NodeView(g, c.asked, id, c.hosts[id].node)
  {
  }

  lemma MessageAccepted(c: Cluster, g: Ghost, n: Node, p: Packet)
    requires Coupled(c, g) && Inv(g.p) && p in c.net && !p.msg.SnapshotRequest? && InOrder(n)
    ensures Accepted(DurableOf(n), OnReceive(n, p.from, p.msg).writes)
    ensures p.msg.AppendRequest? ==> Contiguous(p.msg.entries)
  {
    hide Coupled, Inv, AppendRequestView, Accepted, Contiguous, InOrder, OnAppendRequest;
    match p.msg
    case AppendRequest(_, _, _, _, _, _, _) =>
      RequestInNet(c, g, p);
      RequestAdmissible(g, p.from, p.to, p.msg);
      AppendAccepted(n, p.from, p.msg);
    case AppendReply(_, _, _, _, _, _, _) => ReplyAccepted(n, p.from, p.msg);
    case SnapshotReply(_, _, _, _, _, _) => ReplyAccepted(n, p.from, p.msg);
    case _ => VotingAccepted(n, p.from, p.msg);
  }
}
