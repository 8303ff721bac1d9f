/** A stage of three Nodes on which concrete runs are played: a run is followed by
    the three Nodes, some of the packets sent and some of the effects shown. */
module Stage {
  import opened Types
  import opened Messages
  import opened Node
  import opened Cluster
  import opened WalReplay
  import opened WalHistory
  import Sessions

  // ------------------------------------------------------------------- the stage

  function Blank(): Sessions.Machine { Sessions.Empty(1) }

  /** A packet, whatever Snapshot image it carries. */
  datatype Letter = Letter(from: NodeId, to: NodeId, msg: Message)

  function Wire(from: NodeId, to: NodeId, msg: Message): Letter { Letter(from, to, msg) }

  /** Three Nodes, some of the packets sent and some of the effects shown. */
  datatype Scene = Scene(a: Node, b: Node, c: Node, sent: set<Letter>, shown: set<Seen>)

  predicate Actor(id: NodeId) { id == "a" || id == "b" || id == "c" }

  function NodeOf(s: Scene, id: NodeId): Node
    requires Actor(id)
  {
    if id == "a" then s.a else if id == "b" then s.b else s.c
  }

  function With(s: Scene, id: NodeId, n: Node): Scene
    requires Actor(id)
  {
    if id == "a" then s.(a := n) else if id == "b" then s.(b := n) else s.(c := n)
  }

  predicate HostIs(c: Cluster, id: NodeId, n: Node) { id in c.hosts && c.hosts[id].node == n }

  predicate IsLetter(p: Packet, w: Letter) { p.from == w.from && p.to == w.to && p.msg == w.msg }

  predicate Posted(net: set<Packet>, w: Letter) { exists p :: p in net && IsLetter(p, w) }

  predicate AllPosted(net: set<Packet>, sent: set<Letter>) { forall w :: w in sent ==> Posted(net, w) }

  predicate Shows(c: Cluster, s: Scene) {
    && HostIs(c, "a", s.a) && HostIs(c, "b", s.b) && HostIs(c, "c", s.c)
    && AllPosted(c.net, s.sent) && s.shown <= c.seen
  }

  ghost predicate Playing(rules: Rules, run: seq<Cluster>, s: Scene) { IsRunUnder(rules, run) && Shows(run[|run| - 1], s) }

  /** What a Node's WAL holds at the end of the run. */
  function Tape(run: seq<Cluster>, id: NodeId): seq<Record>
    requires run != []
  {
    JournalOf(run[|run| - 1], id).records
  }

  /** The tapes after a step at one Node. */
  ghost predicate Taped(run: seq<Cluster>, run': seq<Cluster>, id: NodeId, d: Durable, ws: seq<Write>) {
    && run != [] && run' != []
    && Tape(run', id) == Tape(run, id) + Records(d, ws)
    && forall j :: j != id ==> Tape(run', j) == Tape(run, j)
  }

  predicate FromStep(id: NodeId, actions: seq<Action>, sent: set<Letter>, shown: set<Seen>) {
    && (forall w :: w in sent ==> w.from == id && Send(w.to, w.msg) in actions)
    && (forall x :: x in shown ==> x.node == id && x.action in actions && !x.action.Send?)
  }

  lemma OneMore(rules: Rules, run: seq<Cluster>, c: Cluster, id: NodeId, stim: Stimulus)
    requires IsRunUnder(rules, run) && StepUnder(rules, run[|run| - 1], c, id, stim)
    ensures IsRunUnder(rules, run + [c])
  {
    hide StepUnder;
  }

  lemma RunShows(c: Cluster, s: Scene, id: NodeId, stim: Stimulus, r: StepResult, sent: set<Letter>, shown: set<Seen>)
    requires Shows(c, s) && Actor(id) && r == Step(NodeOf(s, id), EventOf(NodeOf(s, id), stim))
    requires FromStep(id, r.actions, sent, shown)
    ensures Shows(Run(c, id, stim), After(s, id, r.node, sent, shown))
  {
    hide Step, EventOf, Consume, Posted, JournalOf;
    var c' := Run(c, id, stim);
    var image := NewImage(c.hosts[id], stim, r.node.base);
    forall w | w in s.sent + sent ensures Posted(c'.net, w) {
      if w in s.sent { StillPosted(c.net, c'.net, w); } else { NowPosted(id, image, r.actions, c'.net, w); }
    }
    assert s.shown + shown <= c'.seen;
  }

  lemma StillPosted(net: set<Packet>, net': set<Packet>, w: Letter)
    requires Posted(net, w) && net <= net'
    ensures Posted(net', w)
  {
    var p :| p in net && IsLetter(p, w);
    assert p in net';
  }

  lemma NowPosted(id: NodeId, image: Sessions.Machine, actions: seq<Action>, net: set<Packet>, w: Letter)
    requires w.from == id && Send(w.to, w.msg) in actions && Packets(id, image, actions) <= net
    ensures Posted(net, w)
  {
    var p := Packet(id, w.to, w.msg, image);
    assert Send(w.to, w.msg).Send? && p in Packets(id, image, actions);
    assert p in net && IsLetter(p, w);
  }

  lemma RunTapes(run: seq<Cluster>, id: NodeId, stim: Stimulus, r: StepResult)
    requires run != [] && id in run[|run| - 1].hosts
    requires r == Step(run[|run| - 1].hosts[id].node, EventOf(run[|run| - 1].hosts[id].node, stim))
    ensures Taped(run, run + [Run(run[|run| - 1], id, stim)], id, DurableOf(run[|run| - 1].hosts[id].node), r.writes)
  {
    hide Step, EventOf, Consume, Records;
  }

  function After(s: Scene, id: NodeId, n: Node, sent: set<Letter>, shown: set<Seen>): Scene
    requires Actor(id)
  {
    With(s, id, n).(sent := s.sent + sent, shown := s.shown + shown)
  }

  /** A Node takes a step on its own. */
  lemma Act(rules: Rules, run: seq<Cluster>, s: Scene, id: NodeId, ev: Event, r: StepResult, sent: set<Letter>, shown: set<Seen>) returns (run': seq<Cluster>, s': Scene)
    requires Playing(rules, run, s) && Actor(id) && r == Step(NodeOf(s, id), ev)
    requires ev.ElectionTimeout? || ev.AppendFailed? || ev.ProposeSet? || ev.ProposeDelete?
    requires FromStep(id, r.actions, sent, shown)
    ensures s' == After(s, id, r.node, sent, shown) && Playing(rules, run', s')
    ensures Taped(run, run', id, DurableOf(NodeOf(s, id)), r.writes)
  {
    hide Step, Run, FromStep, Taped;
    var c, stim := run[|run| - 1], Local(ev);
    run', s' := Take1(rules, run, s, id, stim, r, sent, shown);
  }

  /** A packet arrives. */
  lemma Take(rules: Rules, run: seq<Cluster>, s: Scene, from: NodeId, id: NodeId, msg: Message, r: StepResult, sent: set<Letter>, shown: set<Seen>) returns (run': seq<Cluster>, s': Scene)
    requires Playing(rules, run, s) && Actor(id) && Wire(from, id, msg) in s.sent && !msg.SnapshotRequest?
    requires rules.deliveries && StaleRejection(msg) ==> !ActsOn(NodeOf(s, id), from, msg)
    requires r == OnReceive(NodeOf(s, id), from, msg)
    requires FromStep(id, r.actions, sent, shown)
    ensures s' == After(s, id, r.node, sent, shown) && Playing(rules, run', s')
    ensures Taped(run, run', id, DurableOf(NodeOf(s, id)), r.writes)
  {
    hide OnReceive, Run, FromStep, Taped, ActsOn;
    var p := Arriving(run[|run| - 1], s, Wire(from, id, msg));
    run', s' := Take1(rules, run, s, id, Stimulus.Message(p), r, sent, shown);
  }

  lemma Arriving(c: Cluster, s: Scene, w: Letter) returns (p: Packet)
    requires Shows(c, s) && w in s.sent
    ensures p in c.net && IsLetter(p, w)
  {
    p :| p in c.net && IsLetter(p, w);
  }

  /** A Snapshot chunk arrives. */
  lemma TakeChunk(rules: Rules, run: seq<Cluster>, s: Scene, from: NodeId, id: NodeId, msg: Message, st: Staged, r: StepResult, sent: set<Letter>) returns (run': seq<Cluster>, s': Scene)
    requires Playing(rules, run, s) && Actor(id) && Wire(from, id, msg) in s.sent && msg.SnapshotRequest?
    requires r == OnSnapshotRequest(NodeOf(s, id), from, msg, st) && FromStep(id, r.actions, sent, {})
    ensures s' == After(s, id, r.node, sent, {}) && Playing(rules, run', s')
    ensures Taped(run, run', id, DurableOf(NodeOf(s, id)), r.writes)
  {
    hide OnSnapshotRequest, Run, FromStep, Taped;
    var p := Arriving(run[|run| - 1], s, Wire(from, id, msg));
    run', s' := Take1(rules, run, s, id, Stimulus.Chunk(p, st), r, sent, {});
  }

  /** A Node compacts what it has applied. */
  lemma Compacts(rules: Rules, run: seq<Cluster>, s: Scene, id: NodeId, r: StepResult) returns (run': seq<Cluster>, s': Scene)
    requires Playing(rules, run, s) && Actor(id)
    requires var n := NodeOf(s, id); r == OnCompacted(n, n.lastApplied, TermAt(n, n.lastApplied))
    ensures s' == After(s, id, r.node, {}, {}) && Playing(rules, run', s')
    ensures Taped(run, run', id, DurableOf(NodeOf(s, id)), r.writes)
  {
    hide OnCompacted, Run, Taped, TermAt;
    run', s' := Take1(rules, run, s, id, Compaction, r, {}, {});
  }

  /** A Node stops between steps and comes back with what its WAL replays to. */
  lemma Falls(rules: Rules, run: seq<Cluster>, s: Scene, id: NodeId, d: Durable) returns (run': seq<Cluster>, s': Scene)
    requires Playing(rules, run, s) && Actor(id) && !rules.restarts && run != [] && Recover(Tape(run, id)) == Ok(d)
    ensures s' == After(s, id, ApplyThrough(Restart(id, NodeOf(s, id).peers, d), d.commit).node, {}, {}) && Playing(rules, run', s')
    ensures Taped(run, run', id, d, [])
  {
    hide Step, EventOf, ApplyThrough, IsRunUnder, Recover, Shows, Resume, RecoveredAt, Taped, RestartGuarded;
    var c, stim := run[|run| - 1], Local(ElectionTimeout);
    HostsOf(c, s, id);
    FallRecovers(c, id, stim);
    var c' := Resume(c, id, stim, 0, d);
    FallShows(c, s, id, stim, d);
    FallTapes(run, id, stim, d);
    assert CrashAt(rules, c, c', id, stim, 0);
    OneMore(rules, run, c', id, stim);
    run', s' := run + [c'], After(s, id, ApplyThrough(Restart(id, NodeOf(s, id).peers, d), d.commit).node, {}, {});
  }

  lemma HostsOf(c: Cluster, s: Scene, id: NodeId)
    requires Shows(c, s) && Actor(id)
    ensures HostIs(c, id, NodeOf(s, id))
  {
  }

  lemma FallRecovers(c: Cluster, id: NodeId, stim: Stimulus)
    requires id in c.hosts
    ensures RecoveredAt(c, id, stim, 0) == Recover(JournalOf(c, id).records) && JournalAt(c, id, stim, 0).records == JournalOf(c, id).records
  {
    hide Step, EventOf, Recover;
    var n := c.hosts[id].node;
    assert Step(n, EventOf(n, stim)).writes[..0] == [];
    assert JournalOf(c, id).records + [] == JournalOf(c, id).records;
  }

  lemma FallShows(c: Cluster, s: Scene, id: NodeId, stim: Stimulus, d: Durable)
    requires Shows(c, s) && Actor(id)
    ensures Shows(Resume(c, id, stim, 0, d), After(s, id, ApplyThrough(Restart(id, NodeOf(s, id).peers, d), d.commit).node, {}, {}))
  {
    hide Step, EventOf, ApplyThrough, Consume, AllPosted, JournalAt;
    assert s.sent + {} == s.sent && s.shown + {} == s.shown;
  }

  lemma FallTapes(run: seq<Cluster>, id: NodeId, stim: Stimulus, d: Durable)
    requires run != [] && id in run[|run| - 1].hosts
    ensures Taped(run, run + [Resume(run[|run| - 1], id, stim, 0, d)], id, d, [])
  {
    hide Step, EventOf, ApplyThrough, Consume, JournalAt;
    FallRecovers(run[|run| - 1], id, stim);
    assert Tape(run, id) + [] == Tape(run, id);
  }

  lemma Take1(rules: Rules, run: seq<Cluster>, s: Scene, id: NodeId, stim: Stimulus, r: StepResult, sent: set<Letter>, shown: set<Seen>) returns (run': seq<Cluster>, s': Scene)
    requires Playing(rules, run, s) && Actor(id) && Enabled(run[|run| - 1], id, stim) && (rules.deliveries ==> Guarded(run[|run| - 1], id, stim))
    requires r == Step(NodeOf(s, id), EventOf(NodeOf(s, id), stim))
    requires FromStep(id, r.actions, sent, shown)
    ensures s' == After(s, id, r.node, sent, shown) && Playing(rules, run', s')
    ensures Taped(run, run', id, DurableOf(NodeOf(s, id)), r.writes)
  {
    hide Step, EventOf, Run, FromStep, Enabled, Guarded, IsRunUnder, Taped;
    NotEmpty(rules, run);
    var c := run[|run| - 1];
    RunShows(c, s, id, stim, r, sent, shown);
    OneMore(rules, run, Run(c, id, stim), id, stim);
    RunTapes(run, id, stim, r);
    run', s' := run + [Run(c, id, stim)], After(s, id, r.node, sent, shown);
  }

  lemma NotEmpty(rules: Rules, run: seq<Cluster>)
    requires IsRunUnder(rules, run)
    ensures run != []
  {
  }

  /** Part of what is known is known. */
  lemma Fewer(rules: Rules, run: seq<Cluster>, s: Scene, s': Scene)
    requires Playing(rules, run, s) && s'.a == s.a && s'.b == s.b && s'.c == s.c && s'.sent <= s.sent && s'.shown <= s.shown
    ensures Playing(rules, run, s')
  {
    hide IsRunUnder;
  }

  lemma ShownIsSeen(rules: Rules, run: seq<Cluster>, s: Scene)
    requires Playing(rules, run, s)
    ensures IsRunUnder(rules, run) && run != [] && s.shown <= run[|run| - 1].seen
  {
  }

  // ---------------------------------------------------------------- common moves

  predicate Plain(n: Node, p: NodeId, q: NodeId) { n.peers == [p, q] && p != q && p != n.id && q != n.id && n.waiting == map[] }

  /** The request that asks whether a peer is in step. */
  function ProbeOf(n: Node, id: nat): Message { AppendRequest(n.term, id, LastIndex(n), TermAt(n, LastIndex(n)), [], n.commit, 0) }

  /** A Candidate with one more vote leads and probes both peers. */
  lemma Leads(n: Node, p: NodeId, q: NodeId, from: NodeId)
    requires Plain(n, p, q) && n.role == Candidate && n.votes == {n.id} && from in n.peers
    requires n.matchIndex == map[] && n.inFlight == map[] && n.snapInFlight == map[] && n.activePeers == {} && !n.readReady
    ensures var r := OnVoteReply(n, from, VoteReply(n.term, true));
            var last := LastIndex(n);
            && r.node == n.(role := Leader, leaderId := n.id, votes := {n.id, from}, log := n.log + [NoOpAt(last + 1, n.term)],
                            nextIndex := map[p := last + 2, q := last + 2],
                            inFlight := map[p := InFlight(n.nextRequest + 1, n.commit), q := InFlight(n.nextRequest + 2, n.commit)],
                            nextRequest := n.nextRequest + 2)
            && Send(p, AppendRequest(n.term, n.nextRequest + 1, last + 1, n.term, [], n.commit, 0)) in r.actions
            && Send(q, AppendRequest(n.term, n.nextRequest + 2, last + 1, n.term, [], n.commit, 0)) in r.actions
            && r.writes == [Append(NoOpAt(last + 1, n.term))]
  {
    hide SendAll, SendTo;
    var n1 := n.(votes := n.votes + {from});
    var noop := NoOpAt(LastIndex(n) + 1, n.term);
    var n2 := n1.(role := Leader, leaderId := n.id, log := n.log + [noop], nextIndex := InitialNext(n.peers, LastIndex(n) + 2));
    assert InitialNext(n.peers, LastIndex(n) + 2) == map[p := LastIndex(n) + 2, q := LastIndex(n) + 2];
    assert |n1.votes| == 2;
    ProbesBoth(n2, p, q);
  }

  lemma ProbesBoth(n: Node, p: NodeId, q: NodeId)
    requires Plain(n, p, q) && n.inFlight == map[] && n.log != []
    requires n.nextIndex == map[p := LastIndex(n) + 1, q := LastIndex(n) + 1]
    ensures var e := SendAll(n, n.peers, 0);
            && e.node == n.(inFlight := map[p := InFlight(n.nextRequest + 1, n.commit), q := InFlight(n.nextRequest + 2, n.commit)],
                            nextRequest := n.nextRequest + 2)
            && Send(p, ProbeOf(n, n.nextRequest + 1)) in e.actions && Send(q, ProbeOf(n, n.nextRequest + 2)) in e.actions
  {
    hide PendingReadFor, SendTo, TermAt;
    NoReads(n, p);
    ProbesOne(n, p);
    var one := SendTo(n, p, 0);
    NoReads(one.node, q);
    SameTerms(n, one.node);
    ProbesOne(one.node, q);
    var two := SendTo(one.node, q, 0);
    assert n.peers[1..] == [q] && [q][1..] == [];
    assert SendAll(two.node, [], 0) == Effect(two.node, []);
    assert SendAll(one.node, [q], 0) == Effect(two.node, two.actions + []);
  }

  lemma SameTerms(n: Node, n': Node)
    requires n'.base == n.base && n'.baseTerm == n.baseTerm && n'.log == n.log
    ensures TermAt(n', LastIndex(n')) == TermAt(n, LastIndex(n))
  {
  }

  lemma ProbesOne(n: Node, p: NodeId)
    requires n.log != [] && p !in n.inFlight && p in n.nextIndex && n.nextIndex[p] == LastIndex(n) + 1
    ensures SendTo(n, p, 0) ==
              Effect(n.(nextRequest := n.nextRequest + 1, inFlight := n.inFlight[p := InFlight(n.nextRequest + 1, n.commit)]),
                     [Send(p, ProbeOf(n, n.nextRequest + 1))])
  {
    hide EntriesBatch, TermAt;
    NothingAfter(n);
  }

  lemma NoReads(n: Node, peer: NodeId)
    requires n.waiting == map[]
    ensures PendingReadFor(n, peer) == 0
  {
    assert forall id :: id !in n.waiting;
  }

  lemma NothingAfter(n: Node)
    ensures EntriesBatch(n, LastIndex(n) + 1) == []
  {
  }

  /** A Leader with everything in flight only extends its log. */
  lemma Extends(n: Node, p: NodeId, q: NodeId, id: nat, e: Entry)
    requires Plain(n, p, q) && n.role == Leader
    requires p in n.inFlight && q in n.inFlight && n.inFlight[p].requestId != 0 && n.inFlight[q].requestId != 0
    ensures Propose(n, id, e).node == n.(log := n.log + [e]) && Propose(n, id, e).writes == [Append(e)]
  {
    var n' := n.(log := n.log + [e]);
    assert n.peers[1..] == [q] && [q][1..] == [];
    assert SendAll(n', [], 0) == Effect(n', []);
    assert SendAll(n', [q], 0) == Effect(n', [] + []);
  }

  lemma Handlers(n: Node, from: NodeId, m: Message)
    ensures m.PreVoteRequest? ==> OnReceive(n, from, m) == OnPreVoteRequest(n, from, m)
    ensures m.PreVoteReply? ==> OnReceive(n, from, m) == OnPreVoteReply(n, from, m)
    ensures m.VoteRequest? ==> OnReceive(n, from, m) == OnVoteRequest(n, from, m)
    ensures m.VoteReply? ==> OnReceive(n, from, m) == OnVoteReply(n, from, m)
    ensures m.AppendRequest? ==> OnReceive(n, from, m) == OnAppendRequest(n, from, m)
    ensures m.AppendReply? ==> OnReceive(n, from, m) == OnAppendReply(n, from, m)
    ensures m.SnapshotReply? ==> OnReceive(n, from, m) == OnSnapshotReply(n, from, m)
  {
  }

  lemma Timers(n: Node, ev: Event)
    ensures ev.ElectionTimeout? ==> Step(n, ev) == OnElectionTimeout(n)
    ensures ev.ProposeSet? || ev.ProposeDelete? ==> Step(n, ev) == OnPropose(n, ev)
    ensures ev.AppendFailed? ==> Step(n, ev) == OnAppendFailed(n, ev.to, ev.requestId)
  {
  }

  lemma NothingToApply(n: Node)
    requires n.commit <= n.lastApplied && n.waiting == map[]
    ensures ApplyThrough(n, n.commit) == Effect(n, [])
  {
    assert ReadyReads(n) == {};
  }

  lemma {:induction false} AppliesAll(n: Node, index: nat, k: nat)
    requires n.waiting == map[] && n.base <= n.lastApplied < k <= index <= LastIndex(n)
    ensures var e := ApplyThrough(n, index);
            e.node == n.(lastApplied := index, readReady := e.node.readReady) && ApplyEntry(n.log[k - 1 - n.base]) in e.actions
    ensures n.role != Leader || n.readReady ==> ApplyThrough(n, index).node.readReady == n.readReady
    ensures n.role == Leader && n.log[index - 1 - n.base] == NoOpAt(index, n.term) ==> ApplyThrough(n, index).node.readReady
    decreases index - n.lastApplied
  {
    var one := ApplyOne(n);
    var rest := ApplyThrough(one.node, index);
    if n.lastApplied + 1 == index {
      assert ReadyReads(one.node) == {};
    } else {
      AppliesAll(one.node, index, if k == n.lastApplied + 1 then k + 1 else k);
    }
  }

  predicate Waiting(n: Node, p: NodeId) { p in n.inFlight && n.inFlight[p].requestId != 0 }

  /** With one request outstanding only the other peer is sent to. */
  lemma SendsToOther(n: Node, p: NodeId, q: NodeId, free: NodeId)
    requires Plain(n, p, q) && n.log != [] && free in [p, q] && free !in n.inFlight && Waiting(n, if free == p then q else p)
    requires free in n.nextIndex && n.nextIndex[free] == LastIndex(n) + 1
    ensures var e := SendAll(n, n.peers, 0);
            && e.node == n.(inFlight := n.inFlight[free := InFlight(n.nextRequest + 1, n.commit)], nextRequest := n.nextRequest + 1)
            && Send(free, ProbeOf(n, n.nextRequest + 1)) in e.actions
  {
    hide PendingReadFor, SendTo, TermAt;
    NoReads(n, p);
    NoReads(n, q);
    ProbesOne(n, free);
    Held(n, if free == p then q else p);
    var one := SendTo(n, p, 0);
    NoReads(one.node, q);
    Held(one.node, if free == p then q else p);
    assert n.peers[1..] == [q] && [q][1..] == [];
    var two := SendTo(one.node, q, 0);
    assert SendAll(two.node, [], 0) == Effect(two.node, []);
    assert SendAll(one.node, [q], 0) == Effect(two.node, two.actions + []);
  }

  lemma Held(n: Node, p: NodeId)
    ensures Waiting(n, p) ==> SendTo(n, p, 0) == Effect(n, [])
  {
  }

  /** A rejection to the Leader's current request, hinting at a next index. */
  predicate Rejects(n: Node, from: NodeId, m: Message, next: nat) {
    && m.AppendReply? && !m.success && m.term == n.term && m.readId == 0
    && Get(n.inFlight, from, InFlight(0, 0)).requestId in {0, m.requestId}
    && NextIndexFromConflict(n, Hint(m.conflictTerm, m.conflictIndex)) == next
  }

  function Retrying(n: Node, from: NodeId, next: nat): Node {
    n.(activePeers := n.activePeers + {from}, nextIndex := n.nextIndex[from := next], inFlight := n.inFlight - {from})
  }

  lemma NotesRejection(n: Node, from: NodeId, m: Message, next: nat)
    requires Rejects(n, from, m, next)
    ensures NoteReply(n, from, m) == Retrying(n, from, next)
  {
    hide NextIndexFromConflict;
  }

  /** After a rejection that commits nothing the Leader retries from the hint. */
  lemma Retries(n: Node, p: NodeId, q: NodeId, from: NodeId, m: Message, next: nat)
    requires Plain(n, p, q) && n.role == Leader && from in n.peers && Rejects(n, from, m, next) && n.base < next <= LastIndex(n) + 1
    requires LeaderCommit(Retrying(n, from, next), LastIndex(n)) == n.commit
    ensures var r, id := OnAppendReply(n, from, m), n.nextRequest + 1;
            && r.node == Retrying(n, from, next).(inFlight := (n.inFlight - {from})[from := InFlight(id, n.commit)], nextRequest := id)
            && Send(from, AppendRequest(n.term, id, next - 1, TermAt(n, next - 1), EntriesBatch(n, next), n.commit, 0)) in r.actions
            && r.writes == []
  {
    hide NoteReply, NextIndexFromConflict, LeaderCommit, PendingReadFor, EntriesBatch, TermAt;
    NotesRejection(n, from, m, next);
    var n1 := Retrying(n, from, next);
    NoReads(n1, from);
    SameLog(n, n1, next);
    var sent := SendTo(n1, from, 0);
    assert AckRead(sent.node, from, 0) == Effect(sent.node, []);
  }

  lemma SameLog(n: Node, n': Node, next: nat)
    requires n'.base == n.base && n'.baseTerm == n.baseTerm && n'.log == n.log && 0 < next
    ensures EntriesBatch(n', next) == EntriesBatch(n, next) && TermAt(n', next - 1) == TermAt(n, next - 1)
  {
  }

  /** The Leader once it has noted an acknowledgement of its whole log. */
  function Noted(n: Node, from: NodeId): Node {
    n.(activePeers := n.activePeers + {from}, matchIndex := n.matchIndex[from := LastIndex(n)],
       nextIndex := n.nextIndex[from := LastIndex(n) + 1], inFlight := n.inFlight - {from})
  }

  predicate AcksAll(n: Node, from: NodeId, m: Message) {
    && m.AppendReply? && m.success && m.term == n.term && m.readId == 0 && m.matchIndex == LastIndex(n) > Get(n.matchIndex, from, 0)
    && Get(n.inFlight, from, InFlight(0, 0)).requestId in {0, m.requestId}
  }

  lemma NotesAll(n: Node, from: NodeId, m: Message)
    requires AcksAll(n, from, m)
    ensures NoteReply(n, from, m) == Noted(n, from)
  {
  }

  lemma CommitsLast(n: Node, p: NodeId, q: NodeId, from: NodeId)
    requires Plain(n, p, q) && from in n.peers && n.commit < LastIndex(n) && TermAt(n, LastIndex(n)) == n.term
    ensures LeaderCommit(Noted(n, from), LastIndex(n)) == LastIndex(n)
  {
    hide TermAt;
    var n1 := Noted(n, from);
    SameTerms(n, n1);
    assert from in Replicas(n1, LastIndex(n));
    assert Replicas(n1, LastIndex(n)) == {from} + (Replicas(n1, LastIndex(n)) - {from});
    assert |Replicas(n1, LastIndex(n))| >= 1;
  }

  /** One acknowledgement of the whole log lets a Leader of three commit it. */
  lemma Commits(n: Node, p: NodeId, q: NodeId, from: NodeId, m: Message, k: nat)
    requires Plain(n, p, q) && n.role == Leader && from in [p, q] && Waiting(n, if from == p then q else p) && AcksAll(n, from, m)
    requires n.base <= n.lastApplied <= n.commit < LastIndex(n) && TermAt(n, LastIndex(n)) == n.term && n.lastApplied < k <= LastIndex(n)
    ensures var r, last := OnAppendReply(n, from, m), LastIndex(n);
            && r.node == Noted(n, from).(inFlight := (n.inFlight - {from})[from := InFlight(n.nextRequest + 1, last)], nextRequest := n.nextRequest + 1,
                                         commit := last, lastApplied := last, readReady := r.node.readReady)
            && (n.readReady || n.log[|n.log| - 1] == NoOpAt(last, n.term) ==> r.node.readReady)
            && ApplyEntry(n.log[k - 1 - n.base]) in r.actions && r.writes == [SaveCommit(last)]
            && Send(from, ProbeOf(n.(commit := last), n.nextRequest + 1)) in r.actions
  {
    hide TermAt, LeaderCommit, NoteReply, SendAll, ApplyThrough;
    var last := LastIndex(n);
    NotesAll(n, from, m);
    CommitsLast(n, p, q, from);
    var n1 := Noted(n, from).(commit := last);
    SendsToOther(n1, p, q, from);
    SameTerms(n, n1);
    SameTerms(n, n.(commit := last));
    var sent := SendAll(n1, n1.peers, 0);
    assert AckRead(sent.node, from, 0) == Effect(sent.node, []);
    AppliesAll(sent.node, last, k);
  }

  lemma NothingCommitted(n: Node, from: NodeId, next: nat)
    requires n.matchIndex == map[] && n.commit == 0 && |n.peers| == 2
    ensures LeaderCommit(Retrying(n, from, next), LastIndex(n)) == 0
  {
    NoReplica(Retrying(n, from, next), LastIndex(n));
  }

  lemma {:induction false} NoReplica(n: Node, index: nat)
    requires n.matchIndex == map[] && n.commit == 0 && |n.peers| == 2
    ensures LeaderCommit(n, index) == 0
    decreases index
  {
    if index > 0 {
      assert Replicas(n, index) == {};
      NoReplica(n, index - 1);
    }
  }

  /** Two Nodes applied different entries at one index. */
  predicate Disagree(c: Cluster) {
    exists x, y :: x in c.seen && y in c.seen && x.action.ApplyEntry? && y.action.ApplyEntry?
      && x.action.entry.index == y.action.entry.index && x.action.entry != y.action.entry
  }

  // ----------------------------------------------------------------------- starting

  function NewNode(id: NodeId, p: NodeId, q: NodeId): Node { Restart(id, [p, q], Durable(0, "", 0, 0, [], 0)) }

  function FirstHost(n: Node): Host { Host(n, Blank(), Blank()) }

  function FirstCluster(): Cluster {
    Cluster(1, map["a" := FirstHost(NewNode("a", "b", "c")), "b" := FirstHost(NewNode("b", "a", "c")), "c" := FirstHost(NewNode("c", "a", "b"))],
            {}, {}, 0, map[], map[])
  }

  lemma Starts(rules: Rules) returns (run: seq<Cluster>)
    ensures Playing(rules, run, Scene(NewNode("a", "b", "c"), NewNode("b", "a", "c"), NewNode("c", "a", "b"), {}, {}))
    ensures run != [] && forall id :: Tape(run, id) == []
  {
    FirstStarts();
    run := [FirstCluster()];
  }

  lemma FirstStarts()
    ensures IsStart(FirstCluster())
  {
    var members := FirstCluster().hosts.Keys;
    assert members == {"a", "b", "c"};
    assert PeerSet(["b", "c"]) == members - {"a"};
    assert PeerSet(["a", "c"]) == members - {"b"};
    assert PeerSet(["a", "b"]) == members - {"c"};
  }
}
