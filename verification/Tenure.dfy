/** A Leader only ever appends to its log while it leads. */
module Tenure {
  import opened Types
  import opened Messages
  import opened Node
  import opened Cluster
  import opened Durability
  import Speech

  /** What a Leader may write. */
  predicate Mild(n: Node, w: Write) {
    w.SaveHardState? || w.Append? || w.SaveCommit? || (w.Checkpoint? && w.keep && n.base <= w.index <= LastIndex(n))
  }

  /** If the Node leads after the step, it wrote at most one mild thing. */
  predicate LeadsOn(n: Node, r: StepResult) {
    r.node.role == Leader ==> |r.writes| <= 1 && forall w :: w in r.writes ==> Mild(n, w)
  }

  lemma FinishRole(n: Node, writes: seq<Write>, from: NodeId, m: Message)
    requires m.AppendRequest?
    ensures FinishAppend(n, writes, from, m).node.role == n.role
  {
    hide ApplyThrough;
    var target := Min(m.leaderCommit, LastIndex(n));
    var n1 := if target > n.commit then n.(commit := target) else n;
    Speech.ApplyThroughSpeaks(n1, n1.commit);
  }

  lemma AppendRequestLeadsOn(n: Node, from: NodeId, m: Message)
    requires m.AppendRequest?
    ensures LeadsOn(n, OnAppendRequest(n, from, m))
  {
    hide FinishAppend, PlanAppend, Matches, ConflictHint, StoreWrites, HardStateIf;
    if n.term <= m.term {
      var n1 := Recognise(n, m.term, from);
      var hs := HardStateIf(m.term > n.term, n1);
      var plan := PlanAppend(n1, m.prevIndex + 1, m.entries);
      FinishRole(n1, hs, from, m);
      if plan.Store? {
        FinishRole(StoreEntries(n1, plan.truncateFrom, plan.tail), hs + StoreWrites(plan.truncateFrom, plan.tail), from, m);
      }
    }
  }

  lemma ReplyLeadsOn(n: Node, from: NodeId, m: Message)
    requires m.AppendReply?
    ensures LeadsOn(n, OnAppendReply(n, from, m))
  {
    hide SendAll, SendTo, AckRead, ApplyThrough, NoteReply, LeaderCommit, PendingReadFor;
  }

  lemma SnapshotsLeadOn(n: Node, from: NodeId, m: Message, st: Staged)
    ensures m.SnapshotReply? ==> LeadsOn(n, OnSnapshotReply(n, from, m))
    ensures m.SnapshotRequest? ==> LeadsOn(n, OnSnapshotRequest(n, from, m, st))
  {
    hide SendTo, PendingReadFor, TermAt, HardStateIf;
  }

  lemma MessageLeadsOn(n: Node, from: NodeId, m: Message)
    requires n.role == Leader
    ensures LeadsOn(n, OnReceive(n, from, m))
  {
    hide OnAppendRequest, OnAppendReply, OnSnapshotReply, LogIsUpToDate;
    match m
    case AppendRequest(_, _, _, _, _, _, _) => AppendRequestLeadsOn(n, from, m);
    case AppendReply(_, _, _, _, _, _, _) => ReplyLeadsOn(n, from, m);
    case SnapshotReply(_, _, _, _, _, _) => SnapshotsLeadOn(n, from, m, Staged(false, false, 0));
    case VoteRequest(_, _, _) => VoteRequestLeadsOn(n, from, m);
    case _ =>
  }

  lemma VoteRequestLeadsOn(n: Node, from: NodeId, m: Message)
    requires n.role == Leader && m.VoteRequest?
    ensures LeadsOn(n, OnVoteRequest(n, from, m))
  {
    hide LogIsUpToDate;
  }

  lemma StepLeadsOn(n: Node, ev: Event)
    requires n.role == Leader
    ensures LeadsOn(n, Step(n, ev))
  {
    hide OnReceive, OnSnapshotRequest, SendAll, ApplyThrough, TermAt;
    match ev
    case Receive(from, m) => MessageLeadsOn(n, from, m);
    case ReceiveSnapshot(from, m, st) => SnapshotsLeadOn(n, from, m, st);
    case _ =>
  }

  /** One mild write keeps every retained entry where it is. */
  lemma MildKeeps(n: Node, w: Write)
    requires Mild(n, w)
    ensures var d' := ApplyWrite(DurableOf(n), w);
            n.base <= d'.base <= LastIndex(n) && n.log[d'.base - n.base..] <= d'.log
  {
    assert n.log[0..] == n.log;
  }

  /** Whatever happens to a Leader that still leads afterwards, its log keeps all
      it held above the Snapshot and only grows at the end. */
  lemma LeaderNeverTruncates(n: Node, ev: Event)
    requires n.role == Leader && Step(n, ev).node.role == Leader
    ensures var n' := Step(n, ev).node;
            n.base <= n'.base <= LastIndex(n) && n.log[n'.base - n.base..] <= n'.log
  {
    if ev.SnapshotCompacted? {
      CompactionKeeps(n, ev.index, ev.snapTerm);
    } else {
      hide Step, Mild;
      WritesCover(n, ev);
      StepLeadsOn(n, ev);
      var writes := Step(n, ev).writes;
      if writes == [] {
        assert n.log[0..] == n.log;
      } else {
        assert writes[0] in writes && writes == [writes[0]];
        OneWrite(DurableOf(n), writes[0]);
        MildKeeps(n, writes[0]);
      }
    }
  }

  lemma CompactionKeeps(n: Node, index: nat, term: nat)
    ensures var n' := OnCompacted(n, index, term).node;
            n.base <= n'.base <= LastIndex(n) && n.log[n'.base - n.base..] <= n'.log
  {
    hide TermAt;
    if CanCompact(n, index, term) {
      assert n.log[index - n.base..] <= n.log[index - n.base..];
    } else {
      assert n.log[0..] == n.log;
    }
  }

  // ------------------------------------------------------------------------- in a run

  /** The later log has every entry of the earlier one that it has not compacted,
      and reaches at least as far. */
  predicate Retains(n: Node, n': Node) {
    && n.base <= n'.base && LastIndex(n) <= LastIndex(n')
    && forall x :: n'.base < x <= LastIndex(n) ==> EntryAt(n, x) == EntryAt(n', x)
  }

  function EntryAt(n: Node, x: nat): Entry
    requires n.base < x <= LastIndex(n)
  {
    n.log[x - n.base - 1]
  }

  lemma RetainsStep(n: Node, n': Node)
    requires n.base <= n'.base <= LastIndex(n) && n.log[n'.base - n.base..] <= n'.log
    ensures Retains(n, n')
  {
    var rest := n.log[n'.base - n.base..];
    forall x | n'.base < x <= LastIndex(n) ensures EntryAt(n, x) == EntryAt(n', x) {
      assert rest[x - n'.base - 1] == n'.log[x - n'.base - 1];
    }
  }

  lemma RetainsTrans(n: Node, n': Node, n'': Node)
    requires Retains(n, n') && Retains(n', n'')
    ensures Retains(n, n'')
  {
    forall x | n''.base < x <= LastIndex(n) ensures EntryAt(n, x) == EntryAt(n'', x) {
      assert EntryAt(n, x) == EntryAt(n', x) == EntryAt(n'', x);
    }
  }

  /** The Node leads Term t. */
  predicate LeadsTerm(c: Cluster, id: NodeId, t: nat) {
    id in c.hosts && c.hosts[id].node.role == Leader && c.hosts[id].node.term == t
  }

  lemma RestartFollows(c: Cluster, id: NodeId, stim: Stimulus, k: nat, d: Durable)
    requires id in c.hosts && k <= |Step(c.hosts[id].node, EventOf(c.hosts[id].node, stim)).writes|
    ensures Resume(c, id, stim, k, d).hosts[id].node.role == Follower
    ensures forall j :: j in c.hosts && j != id ==> Resume(c, id, stim, k, d).hosts[j] == c.hosts[j]
  {
    hide Step, EventOf, ApplyThrough, Consume, JournalAt;
    Speech.ApplyThroughSpeaks(Restart(id, c.hosts[id].node.peers, d), d.commit);
  }

  lemma RunHosts(c: Cluster, id: NodeId, stim: Stimulus)
    requires id in c.hosts
    ensures Run(c, id, stim).hosts[id].node == Step(c.hosts[id].node, EventOf(c.hosts[id].node, stim)).node
    ensures forall j :: j in c.hosts && j != id ==> Run(c, id, stim).hosts[j] == c.hosts[j]
  {
    hide Step, EventOf, Consume;
  }

  lemma StepRetains(rules: Rules, c: Cluster, c': Cluster, id: NodeId, t: nat)
    requires NextUnder(rules, c, c') && LeadsTerm(c, id, t) && LeadsTerm(c', id, t)
    ensures Retains(c.hosts[id].node, c'.hosts[id].node)
  {
    hide Step, EventOf, Run, Resume, RecoveredAt, RestartGuarded, Retains;
    var j, stim :| StepUnder(rules, c, c', j, stim);
    var n := c.hosts[id].node;
    Unmoved(n);
    if c' == Run(c, j, stim) {
      RunHosts(c, j, stim);
      if j == id {
        LeaderNeverTruncates(n, EventOf(n, stim));
        RetainsStep(n, c'.hosts[id].node);
      }
    } else {
      var k: nat :| CrashAt(rules, c, c', j, stim, k);
      RestartFollows(c, j, stim, k, RecoveredAt(c, j, stim, k).value);
    }
  }

  lemma Unmoved(n: Node)
    ensures Retains(n, n)
  {
  }

  /** In every run: between two moments through which a Node leads one Term, its
      log loses nothing but what it compacts and only grows. */
  lemma {:induction false} TenureOnlyAppends(rules: Rules, run: seq<Cluster>, i: nat, j: nat, id: NodeId, t: nat)
    requires IsRunUnder(rules, run) && i <= j < |run| && (forall k :: i <= k <= j ==> LeadsTerm(run[k], id, t))
    ensures id in run[i].hosts && id in run[j].hosts && Retains(run[i].hosts[id].node, run[j].hosts[id].node)
    decreases j
  {
    hide NextUnder, IsStart, Retains, LeadsTerm;
    LeadingHost(run[i], id, t);
    LeadingHost(run[j], id, t);
    Unmoved(run[i].hosts[id].node);
    if i < j {
      LeadingHost(run[j - 1], id, t);
      TenureOnlyAppends(rules, run, i, j - 1, id, t);
      assert NextUnder(rules, run[j - 1], run[j - 1 + 1]);
      StepRetains(rules, run[j - 1], run[j], id, t);
      RetainsTrans(run[i].hosts[id].node, run[j - 1].hosts[id].node, run[j].hosts[id].node);
    }
  }

  lemma LeadingHost(c: Cluster, id: NodeId, t: nat)
    requires LeadsTerm(c, id, t)
    ensures id in c.hosts
  {
  }
}
