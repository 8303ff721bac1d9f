/** What holds of every Cluster reached by any run: any number of Nodes, any
    schedule of timeouts, proposals, reads, Snapshots, compactions, crashes and
    restarts, and any loss, duplication and reordering of messages. */
module Runs {
  import opened Types
  import opened Messages
  import opened Quorums
  import opened Node
  import opened Cluster
  import opened Protocol
  import opened ProtocolProofs
  import opened Coupling
  import opened Stability
  import opened Framing
  import opened Effects
  import opened Steps
  import opened Crashes
  import opened Durability
  import opened Admission
  import opened WalReplay
  import opened WalHistory
  import Runtime
  import Sessions

  lemma InitCoupled(c: Cluster) returns (g: Ghost)
    requires IsStart(c)
    ensures Coupled(c, g) && JournalsOk(c) && g.p.chosen == []
  {
    hide Inv, NodeView, HostView;
    g := Ghost(Init(c.hosts.Keys), map[]);
    InitInv(c.hosts.Keys);
    forall id | id in c.hosts ensures NodeView(g, c.asked, id, c.hosts[id].node) && HostView(g.p, c.limit, id, c.hosts[id]) {
      InitNode(c, g, id);
    }
  }

  lemma InitNode(c: Cluster, g: Ghost, id: NodeId)
    requires IsStart(c) && g == Ghost(Init(c.hosts.Keys), map[]) && id in c.hosts
    ensures NodeView(g, c.asked, id, c.hosts[id].node) && HostView(g.p, c.limit, id, c.hosts[id])
  {
    assert Settled(g.p, 0, [], 0);
  }

  /** The journal tells exactly the Node's durable state, write by write. */
  ghost predicate JournalOk(j: Journal, n: Node) {
    Accepted(BLANK, j.written) && Live(BLANK, j.written) == DurableOf(n) && j.records == Records(BLANK, j.written)
  }

  ghost predicate JournalsOk(c: Cluster) {
    forall id {:trigger JournalOf(c, id)} :: id in c.hosts ==> JournalOk(JournalOf(c, id), c.hosts[id].node)
  }

  lemma LoggedOk(j: Journal, n: Node, ws: seq<Write>, n': Node)
    requires JournalOk(j, n) && Accepted(DurableOf(n), ws) && ApplyWrites(DurableOf(n), ws) == DurableOf(n')
    ensures JournalOk(Logged(j, DurableOf(n), ws), n')
  {
    HistoryConcat(BLANK, j.written, ws);
    Runtime.LiveIsApply(DurableOf(n), ws);
  }

  lemma {:induction false} AcceptedPrefix(d: Durable, ws: seq<Write>, k: nat)
    requires Accepted(d, ws) && k <= |ws|
    ensures Accepted(d, ws[..k])
    decreases |ws|
  {
    if k > 0 {
      assert ws[..k][1..] == ws[1..][..k - 1];
      AcceptedPrefix(ApplyWrite(d, ws[0]), ws[1..], k - 1);
    }
  }

  lemma JournalIs(c: Cluster, id: NodeId)
    requires JournalsOk(c) && id in c.hosts
    ensures JournalOk(JournalOf(c, id), c.hosts[id].node)
  {
  }

  lemma NodeBounded(c: Cluster, g: Ghost, id: NodeId)
    requires Coupled(c, g) && id in c.hosts
    ensures c.hosts[id].node.lastApplied <= c.hosts[id].node.commit
  {
    ViewsOf(c, g, id);
    NodeSound(g, c.asked, id, c.hosts[id].node);
  }

  /** One host and its journal change together. */
  lemma OneJournal(c: Cluster, c': Cluster, id: NodeId)
    requires JournalsOk(c) && id in c.hosts && c'.hosts.Keys == c.hosts.Keys && JournalOk(JournalOf(c', id), c'.hosts[id].node)
    requires forall j :: j in c.hosts && j != id ==> c'.hosts[j] == c.hosts[j] && JournalOf(c', j) == JournalOf(c, j)
    ensures JournalsOk(c')
  {
    forall j | j in c'.hosts ensures JournalOk(JournalOf(c', j), c'.hosts[j].node) {
      if j != id { JournalIs(c, j); }
    }
  }

  lemma RunJournals(c: Cluster, g: Ghost, id: NodeId, stim: Stimulus)
    requires Coupled(c, g) && JournalsOk(c) && Enabled(c, id, stim)
    ensures JournalsOk(Run(c, id, stim))
  {
    hide Coupled, Step, Consume, JournalOk, JournalsOk, Accepted, Enabled;
    EnabledHost(c, id, stim);
    var n := c.hosts[id].node;
    var r := Step(n, EventOf(n, stim));
    JournalIs(c, id);
    CoupledAccepts(c, g, id, stim);
    NodeBounded(c, g, id);
    WritesCover(n, EventOf(n, stim));
    LoggedOk(JournalOf(c, id), n, r.writes, r.node);
    OneJournal(c, Run(c, id, stim), id);
  }

  lemma EnabledHost(c: Cluster, id: NodeId, stim: Stimulus)
    requires Enabled(c, id, stim)
    ensures id in c.hosts
  {
  }

  /** What a crash leaves: the exact durable state, a failed recovery, or the
      durable state with removed entries back in its empty log. */
  ghost predicate RestartCase(c: Cluster, id: NodeId, stim: Stimulus, k: nat)
    requires id in c.hosts
    requires k <= |Step(c.hosts[id].node, EventOf(c.hosts[id].node, stim)).writes|
  {
    var y, d, ws := RecoveredAt(c, id, stim, k), DurableAt(c, id, stim, k), JournalAt(c, id, stim, k).written;
    if Replayable(ws) then y == Ok(d) else if Unreadable(ws) then y.Err? else y.Ok? && Stuck(y.value, d)
  }

  /** Under the restart guard, what the code recovers is the exact durable state. */
  lemma RecoveryIsExact(c: Cluster, g: Ghost, id: NodeId, stim: Stimulus, k: nat)
    requires Coupled(c, g) && JournalsOk(c) && Enabled(c, id, stim)
    requires k <= |Step(c.hosts[id].node, EventOf(c.hosts[id].node, stim)).writes|
    ensures RecoveredAt(c, id, stim, k) == Ok(DurableAt(c, id, stim, k)) <==> RestartGuarded(c, id, stim, k)
    ensures RestartCase(c, id, stim, k)
    ensures var j := JournalAt(c, id, stim, k);
            Accepted(BLANK, j.written) && Live(BLANK, j.written) == DurableAt(c, id, stim, k) && j.records == Records(BLANK, j.written)
  {
    hide Coupled, Step, JournalsOk, Accepted, Enabled, Replayable, Unreadable, Stuck, Recover;
    EnabledHost(c, id, stim);
    var n := c.hosts[id].node;
    var ws := Step(n, EventOf(n, stim)).writes;
    JournalIs(c, id);
    CoupledAccepts(c, g, id, stim);
    AcceptedPrefix(DurableOf(n), ws, k);
    HistoryConcat(BLANK, JournalOf(c, id).written, ws[..k]);
    Runtime.LiveIsApply(DurableOf(n), ws[..k]);
    RecoverCases(JournalAt(c, id, stim, k).written);
    RecoverExactIff(JournalAt(c, id, stim, k).written);
  }

  lemma RestartedDurable(id: NodeId, peers: seq<NodeId>, d: Durable)
    ensures DurableOf(ApplyThrough(Restart(id, peers, d), d.commit).node) == d
  {
    ApplyThroughVolatile(Restart(id, peers, d), d.commit);
  }

  lemma CrashJournals(c: Cluster, g: Ghost, id: NodeId, stim: Stimulus, k: nat)
    requires Coupled(c, g) && JournalsOk(c) && Enabled(c, id, stim)
    requires k <= |Step(c.hosts[id].node, EventOf(c.hosts[id].node, stim)).writes|
    ensures JournalsOk(Exact(c, id, stim, k))
  {
    hide Coupled, Step, Consume, JournalsOk, Accepted, Enabled, ApplyThrough, JournalAt, DurableAt;
    EnabledHost(c, id, stim);
    RecoveryIsExact(c, g, id, stim, k);
    RestartedDurable(id, c.hosts[id].node.peers, DurableAt(c, id, stim, k));
    OneJournal(c, Exact(c, id, stim, k), id);
  }

  lemma NextCoupled(c: Cluster, g: Ghost, c': Cluster) returns (g': Ghost)
    requires Coupled(c, g) && JournalsOk(c) && NextUnder(GUARDED, c, c')
    ensures Coupled(c', g') && Grows(g.p, g'.p) && JournalsOk(c')
  {
    hide Coupled, Grows, Run, Exact, Step, JournalsOk, Enabled;
    var id, stim :| StepUnder(GUARDED, c, c', id, stim);
    EnabledHost(c, id, stim);
    if c' == Run(c, id, stim) {
      g' := RunOk(c, g, id, stim);
      RunJournals(c, g, id, stim);
    } else {
      var k: nat :| CrashAt(GUARDED, c, c', id, stim, k);
      RecoveryIsExact(c, g, id, stim, k);
      IsExact(c, c', id, stim, k);
      g' := CrashOk(c, g, id, stim, k);
      CrashJournals(c, g, id, stim, k);
    }
  }

  lemma IsExact(c: Cluster, c': Cluster, id: NodeId, stim: Stimulus, k: nat)
    requires id in c.hosts && CrashAt(GUARDED, c, c', id, stim, k) && RecoveredAt(c, id, stim, k) == Ok(DurableAt(c, id, stim, k))
    ensures c' == Exact(c, id, stim, k)
  {
    hide Resume, RecoveredAt, DurableAt, Step;
  }

  /** A coupled history for every state of a run, each extending the one before. */
  ghost predicate Explains(gs: seq<Ghost>, run: seq<Cluster>) {
    && |gs| == |run|
    && (forall i {:trigger Coupled(run[i], gs[i])} :: 0 <= i < |run| ==> Coupled(run[i], gs[i]) && JournalsOk(run[i]))
    && (forall i, j {:trigger gs[i], gs[j]} :: 0 <= i <= j < |run| ==> Grows(gs[i].p, gs[j].p))
  }

  lemma ChosenGrows(s: State, s': State)
    requires Grows(s, s')
    ensures s.chosen <= s'.chosen
  {
  }

  lemma GrowsSelf(s: State)
    ensures Grows(s, s)
  {
  }

  lemma {:induction false} RunExplained(run: seq<Cluster>) returns (gs: seq<Ghost>)
    requires IsRun(run)
    ensures Explains(gs, run)
    decreases |run|
  {
    hide Coupled, NextUnder, IsStart, Grows, JournalsOk;
    if |run| == 1 {
      var g := InitCoupled(run[0]);
      GrowsSelf(g.p);
      gs := [g];
    } else {
      var k := |run| - 1;
      var earlier := RunExplained(run[..k]);
      assert Coupled(run[..k][k - 1], earlier[k - 1]);
      assert NextUnder(GUARDED, run[k - 1], run[k - 1 + 1]);
      var g := NextCoupled(run[k - 1], earlier[k - 1], run[k]);
      GrowsSelf(g.p);
      gs := earlier + [g];
      forall i | 0 <= i < |run| ensures Coupled(run[i], gs[i]) && JournalsOk(run[i]) {
        if i < k { assert Coupled(run[..k][i], earlier[i]); }
      }
      forall i, j | 0 <= i <= j < |run| ensures Grows(gs[i].p, gs[j].p) {
        if j == k && i < k {
          assert Grows(earlier[i].p, earlier[k - 1].p);
          GrowsTrans(earlier[i].p, earlier[k - 1].p, g.p);
        } else if j < k {
          assert Grows(earlier[i].p, earlier[j].p);
        }
      }
    }
  }

  ghost predicate Reachable(c: Cluster) {
    exists run :: IsRun(run) && run[|run| - 1] == c
  }

  lemma ReachableCoupled(c: Cluster) returns (g: Ghost)
    requires Reachable(c)
    ensures Coupled(c, g) && JournalsOk(c)
  {
    hide Coupled, NextUnder, IsStart, JournalsOk;
    var run :| IsRun(run) && run[|run| - 1] == c;
    var gs := RunExplained(run);
    assert Coupled(run[|run| - 1], gs[|run| - 1]);
    g := gs[|run| - 1];
  }

  // ------------------------------------------------------------------------ disks

  /** In every reachable state the WAL takes every write of every step. */
  lemma WritesAlwaysAccepted(c: Cluster, id: NodeId, stim: Stimulus)
    requires Reachable(c) && Enabled(c, id, stim)
    ensures var n := c.hosts[id].node;
            && Accepted(DurableOf(n), Step(n, EventOf(n, stim)).writes)
            && Runtime.Admissible(n, EventOf(n, stim))
  {
    hide Coupled, Reachable, JournalsOk, Accepted, Step;
    var g := ReachableCoupled(c);
    CoupledAccepts(c, g, id, stim);
  }

  /** Wherever a crash interrupts a step in a reachable state, replaying the
      records returns exactly the interrupted durable state if and only if the
      newest checkpoint judges every earlier truncation correctly. */
  lemma RestartExactIff(c: Cluster, id: NodeId, stim: Stimulus, k: nat)
    requires Reachable(c) && Enabled(c, id, stim) && k <= |Step(c.hosts[id].node, EventOf(c.hosts[id].node, stim)).writes|
    ensures RecoveredAt(c, id, stim, k) == Ok(DurableAt(c, id, stim, k)) <==> RestartGuarded(c, id, stim, k)
  {
    hide Coupled, Reachable, JournalsOk, Step, RestartGuarded, RecoveredAt, DurableAt;
    var g := ReachableCoupled(c);
    RecoveryIsExact(c, g, id, stim, k);
  }

  /** Where it is not exact, the records decide whether the Node comes back at
      all: it does not if and only if its journal is unreadable, and if it does,
      removed entries are back and nothing else differs. */
  lemma RestartCases(c: Cluster, id: NodeId, stim: Stimulus, k: nat)
    requires Reachable(c) && Enabled(c, id, stim) && k <= |Step(c.hosts[id].node, EventOf(c.hosts[id].node, stim)).writes|
    ensures RestartCase(c, id, stim, k)
  {
    hide Coupled, Reachable, JournalsOk, Step, RestartGuarded, RestartCase;
    var g := ReachableCoupled(c);
    RecoveryIsExact(c, g, id, stim, k);
  }

  // ------------------------------------------------------------------------ logs

  /** The entry a Node holds at an index. */
  predicate Holds(n: Node, i: nat, e: Entry) {
    n.base < i <= LastIndex(n) && n.log[i - n.base - 1] == e
  }

  lemma HeldIs(s: State, id: NodeId, n: Node, i: nat, e: Entry)
    requires LogView(s, id, n) && Holds(n, i, e)
    ensures 0 < i <= |s.log[id]| && s.log[id][i - 1] == e
  {
  }

  /** The Term a Node knows of an index: of an entry it holds, or of its Snapshot. */
  predicate Knows(n: Node, i: nat, t: nat) {
    n.base <= i <= LastIndex(n) && TermAt(n, i) == t
  }

  /** Wherever both Nodes still hold an entry up to index k it is the same one, and
      wherever both know the Term, a Snapshot's included, it is the same Term. */
  ghost predicate AgreeUpTo(n: Node, n': Node, k: nat) {
    && (forall i: nat, x, y :: i <= k && Holds(n, i, x) && Holds(n', i, y) ==> x == y)
    && (forall i: nat, x, y :: i <= k && Knows(n, i, x) && Knows(n', i, y) ==> x == y)
  }

  lemma SharedAgree(s: State, s': State, a: NodeId, b: NodeId, n: Node, n': Node, k: nat)
    requires LogView(s, a, n) && LogView(s', b, n') && Shares(s.log[a], s'.log[b], k)
    ensures AgreeUpTo(n, n', k)
  {
    forall i: nat, x, y | i <= k && Holds(n, i, x) && Holds(n', i, y) ensures x == y {
      HeldIs(s, a, n, i, x);
      HeldIs(s', b, n', i, y);
      assert s.log[a][i - 1] == s.log[a][..k][i - 1] == s'.log[b][..k][i - 1];
    }
    forall i: nat, x, y | i <= k && Knows(n, i, x) && Knows(n', i, y) ensures x == y {
      TermAtIs(s, a, n, i);
      TermAtIs(s', b, n', i);
      if i > 0 { assert s.log[a][i - 1] == s.log[a][..k][i - 1] == s'.log[b][..k][i - 1]; }
    }
  }

  lemma ViewsOf(c: Cluster, g: Ghost, id: NodeId)
    requires Coupled(c, g) && id in c.hosts
    ensures Inv(g.p) && NodeView(g, c.asked, id, c.hosts[id].node) && LogView(g.p, id, c.hosts[id].node)
  {
    assert NodeView(g, c.asked, id, c.hosts[id].node);
  }

  /** Nodes that hold an entry of the same Term at one index hold the same
      entries at every index up to it. */
  lemma LogsMatch(c: Cluster, a: NodeId, b: NodeId, i: nat, e: Entry, e': Entry)
    requires Reachable(c) && a in c.hosts && b in c.hosts
    requires Holds(c.hosts[a].node, i, e) && Holds(c.hosts[b].node, i, e') && e.term == e'.term
    ensures e == e' && AgreeUpTo(c.hosts[a].node, c.hosts[b].node, i)
  {
    hide Coupled, NodeView, LogView, Reachable;
    var g := ReachableCoupled(c);
    var s := g.p;
    ViewsOf(c, g, a);
    ViewsOf(c, g, b);
    HeldIs(s, a, c.hosts[a].node, i, e);
    HeldIs(s, b, c.hosts[b].node, i, e');
    assert NodeLogOk(s, a) && NodeLogOk(s, b);
    LogMatching(s, s.log[a], s.log[b], i);
    SharedAgree(s, s, a, b, c.hosts[a].node, c.hosts[b].node, i);
  }

  /** Terms never decrease along a log, nor from the Snapshot into it. */
  lemma TermsAscend(c: Cluster, a: NodeId, i: nat, j: nat)
    requires Reachable(c) && a in c.hosts && i <= j <= LastIndex(c.hosts[a].node) && c.hosts[a].node.base <= i
    ensures TermAt(c.hosts[a].node, i) <= TermAt(c.hosts[a].node, j)
  {
    hide Coupled, NodeView, Reachable;
    var g := ReachableCoupled(c);
    ViewsOf(c, g, a);
    assert NodeLogOk(g.p, a);
    if 0 < i { TermsMonotone(g.p, g.p.log[a], i - 1, j - 1); }
  }

  /** Whatever any Node has committed at some moment, every Leader of its own or
      a later Term holds at every later moment. */
  lemma LeadersComplete(run: seq<Cluster>, i: nat, j: nat, a: NodeId, b: NodeId)
    requires IsRun(run) && i <= j < |run| && a in run[i].hosts && b in run[j].hosts
    requires run[j].hosts[b].node.role == Leader && run[i].hosts[a].node.term <= run[j].hosts[b].node.term
    ensures run[i].hosts[a].node.commit <= LastIndex(run[j].hosts[b].node)
    ensures AgreeUpTo(run[i].hosts[a].node, run[j].hosts[b].node, run[i].hosts[a].node.commit)
  {
    hide Coupled, NodeView, LogView, IsRun, AgreeUpTo, Inv, Grows;
    var gs := RunExplained(run);
    assert Coupled(run[i], gs[i]) && Coupled(run[j], gs[j]) && Grows(gs[i].p, gs[j].p);
    ViewsOf(run[i], gs[i], a);
    ViewsOf(run[j], gs[j], b);
    var n, l := run[i].hosts[a].node, run[j].hosts[b].node;
    LeaderShares(gs[i], gs[j], run[i].asked, run[j].asked, a, b, n, l);
    SharedAgree(gs[i].p, gs[j].p, a, b, n, l, n.commit);
  }

  lemma LeaderShares(g: Ghost, g': Ghost, asked: map<ReadKey, nat>, asked': map<ReadKey, nat>, a: NodeId, b: NodeId, n: Node, l: Node)
    requires Inv(g'.p) && NodeView(g, asked, a, n) && NodeView(g', asked', b, l) && l.role == Leader && n.term <= l.term && Grows(g.p, g'.p)
    ensures n.commit <= LastIndex(l) && Shares(g.p.log[a], g'.p.log[b], n.commit)
  {
    hide Inv;
    SettledStable(g.p, g'.p, n.term, n.term, g.p.log[a], g.p.log[a], n.commit);
    SettledLeader(g'.p, n.term, g.p.log[a], n.commit, l.term);
    LastTermIs(g'.p, b, l);
  }

  // ------------------------------------------------------------------ one history

  /** Every Node's state machine, Snapshot image, committed entries and applied
      entries follow one sequence of entries. */
  ghost predicate Follows(c: Cluster, history: seq<Entry>) {
    && WellIndexed(history, 0)
    && (forall id {:trigger HostFollows(c.limit, c.hosts[id], history)} :: id in c.hosts ==> HostFollows(c.limit, c.hosts[id], history))
    && (forall o :: o in c.seen && o.action.ApplyEntry? ==>
          0 < o.action.entry.index <= |history| && history[o.action.entry.index - 1] == o.action.entry)
  }

  ghost predicate HostFollows(limit: int, h: Host, history: seq<Entry>) {
    && h.node.base <= h.node.lastApplied <= h.node.commit <= |history| && h.node.commit <= LastIndex(h.node)
    && h.node.log[..h.node.commit - h.node.base] == history[h.node.base..h.node.commit]
    && h.machine == Sessions.Replay(Sessions.Empty(limit), history[..h.node.lastApplied])
    && h.image == Sessions.Replay(Sessions.Empty(limit), history[..h.node.base])
  }

  lemma HostFollowsChosen(c: Cluster, g: Ghost, id: NodeId)
    requires Coupled(c, g) && id in c.hosts
    ensures HostFollows(c.limit, c.hosts[id], g.p.chosen)
  {
    var s, h := g.p, c.hosts[id];
    var n := h.node;
    assert NodeView(g, c.asked, id, n) && HostView(s, c.limit, id, h);
    SettledChosen(s, n.term, s.log[id], n.commit);
    hide Inv, Coupled;
    LastTermIs(s, id, n);
    var l := s.log[id];
    assert l[..n.lastApplied] == l[..n.commit][..n.lastApplied] == s.chosen[..n.commit][..n.lastApplied] == s.chosen[..n.lastApplied];
    assert l[..n.base] == l[..n.commit][..n.base] == s.chosen[..n.commit][..n.base] == s.chosen[..n.base];
    assert n.log[..n.commit - n.base] == l[..n.commit][n.base..] == s.chosen[..n.commit][n.base..] == s.chosen[n.base..n.commit];
  }

  lemma ChosenIndexed(s: State)
    requires Inv(s)
    ensures WellIndexed(s.chosen, 0)
  {
    if s.chosen != [] {
      var p :| p in s.commits && p.index == |s.chosen|;
      assert CommitOk(s, p);
      assert LeaderLogOk(s, p.term);
      forall i | 0 <= i < |s.chosen| ensures s.chosen[i].index == i + 1 {
        assert s.chosen[i] == s.chosen[..p.index][i] == s.tlog[p.term][..p.index][i];
      }
    }
  }

  lemma CoupledFollows(c: Cluster, g: Ghost)
    requires Coupled(c, g)
    ensures Follows(c, g.p.chosen)
  {
    ChosenIndexed(g.p);
    forall id | id in c.hosts ensures HostFollows(c.limit, c.hosts[id], g.p.chosen) { HostFollowsChosen(c, g, id); }
    forall o | o in c.seen && o.action.ApplyEntry?
      ensures 0 < o.action.entry.index <= |g.p.chosen| && g.p.chosen[o.action.entry.index - 1] == o.action.entry
    {
      assert SeenView(g.p, o);
    }
  }

  /** State-machine safety over a whole run: there is one history per state,
      only ever extended, that every Node follows at every moment. */
  lemma OneHistory(run: seq<Cluster>) returns (histories: seq<seq<Entry>>)
    requires IsRun(run)
    ensures |histories| == |run|
    ensures forall i {:trigger Follows(run[i], histories[i])} :: 0 <= i < |run| ==> Follows(run[i], histories[i])
    ensures forall i, j {:trigger histories[i], histories[j]} :: 0 <= i <= j < |run| ==> histories[i] <= histories[j]
  {
    hide Coupled, IsRun, Follows, Grows;
    var gs := RunExplained(run);
    histories := seq(|run|, i requires 0 <= i < |run| => gs[i].p.chosen);
    forall i | 0 <= i < |run| ensures Follows(run[i], histories[i]) {
      assert Coupled(run[i], gs[i]);
      CoupledFollows(run[i], gs[i]);
    }
    forall i, j | 0 <= i <= j < |run| ensures histories[i] <= histories[j] {
      assert Grows(gs[i].p, gs[j].p);
      ChosenGrows(gs[i].p, gs[j].p);
    }
  }

  /** No two Nodes ever apply different entries at one index. */
  lemma StateMachineSafety(c: Cluster, o: Seen, o': Seen)
    requires Reachable(c) && o in c.seen && o' in c.seen && o.action.ApplyEntry? && o'.action.ApplyEntry?
    requires o.action.entry.index == o'.action.entry.index
    ensures o.action.entry == o'.action.entry
  {
    var g := ReachableCoupled(c);
    assert SeenView(g.p, o) && SeenView(g.p, o');
  }

  /** Nodes that have applied equally far are in the same state, whether they
      got there entry by entry, from a Snapshot or through a restart. */
  lemma MachinesAgree(c: Cluster, a: NodeId, b: NodeId)
    requires Reachable(c) && a in c.hosts && b in c.hosts && c.hosts[a].node.lastApplied == c.hosts[b].node.lastApplied
    ensures c.hosts[a].machine == c.hosts[b].machine
  {
    var g := ReachableCoupled(c);
    hide Coupled;
    HostFollowsChosen(c, g, a);
    HostFollowsChosen(c, g, b);
  }

  // -------------------------------------------------------------------- durability

  /** The Node holds the whole history, in its log or behind its Snapshot. */
  predicate HoldsAll(n: Node, history: seq<Entry>) {
    n.base <= |history| <= LastIndex(n) && n.log[..|history| - n.base] == history[n.base..]
  }

  /** At every moment a majority holds everything ever committed. */
  lemma MajorityHoldsHistory(c: Cluster) returns (history: seq<Entry>, q: set<NodeId>)
    requires Reachable(c) && c.hosts != map[]
    ensures Follows(c, history) && IsQuorum(c.hosts.Keys, q)
    ensures forall v :: v in q ==> v in c.hosts && HoldsAll(c.hosts[v].node, history)
  {
    hide Reachable, Follows;
    var g := ReachableCoupled(c);
    CoupledFollows(c, g);
    history := g.p.chosen;
    q := Holders(g.p);
    forall v | v in q ensures v in c.hosts && HoldsAll(c.hosts[v].node, history) {
      HolderHolds(c, g, v);
    }
  }

  lemma Holders(s: State) returns (q: set<NodeId>)
    requires Inv(s) && s.members != {}
    ensures IsQuorum(s.members, q) && forall v :: v in q ==> v in s.log && Shares(s.log[v], s.chosen, |s.chosen|)
  {
    if s.chosen == [] {
      q := s.members;
    } else {
      var p :| p in s.commits && p.index == |s.chosen|;
      assert CommitOk(s, p);
      q :| IsQuorum(s.members, q) && AckedBy(s, q, p.term, p.index);
      AckedNotBlocked(s, p.term, p.index, q);
      forall v | v in q ensures v in s.log && Shares(s.log[v], s.chosen, |s.chosen|) {
        assert NodeAckOk(s, v, p.term, p.index);
        SharesTrans(s.log[v], s.tlog[p.term], s.chosen, p.index);
      }
    }
  }

  lemma HolderHolds(c: Cluster, g: Ghost, v: NodeId)
    requires Coupled(c, g) && v in c.hosts && v in g.p.log && Shares(g.p.log[v], g.p.chosen, |g.p.chosen|)
    ensures HoldsAll(c.hosts[v].node, g.p.chosen)
  {
    HostFollowsChosen(c, g, v);
    ViewsOf(c, g, v);
    hide Coupled;
    var n, l, h := c.hosts[v].node, g.p.log[v], g.p.chosen;
    LastTermIs(g.p, v, n);
    assert n.log[..|h| - n.base] == l[..|h|][n.base..] == h[n.base..];
  }
}
