/** A Cluster of any finite size under message loss, duplication and reordering
    and under crashes at any point of a step, as the environment of
    internal/simulation/randomized.go, plus Snapshots and compaction.

    Every packet ever sent stays in `net`: a packet that is never delivered is
    lost, one delivered twice is duplicated, and nothing fixes an order. */
module Cluster {
  import opened Types
  import opened Messages
  import opened Node
  import opened WalReplay
  import WalHistory
  import Sessions

  /** One Node with its state machine and its newest Snapshot image. */
  datatype Host = Host(node: Node, machine: Sessions.Machine, image: Sessions.Machine)

  /** What a Node has put on its disk: the records its WAL holds, from which it
      recovers, and the writes behind them, which no Node reads. */
  datatype Journal = Journal(written: seq<Write>, records: seq<Record>)

  /** The journal after more writes by a WAL whose state is d. */
  function Logged(j: Journal, d: Durable, ws: seq<Write>): Journal {
    Journal(j.written + ws, j.records + WalHistory.Records(d, ws))
  }

  /** A message in flight; image is what a Snapshot transfer carries. */
  datatype Packet = Packet(from: NodeId, to: NodeId, msg: Message, image: Sessions.Machine)

  /** A read as one Leader of one Term accepted it. */
  datatype ReadKey = ReadKey(node: NodeId, term: nat, id: nat)

  /** An effect a Node showed to the outside. */
  datatype Seen = Seen(node: NodeId, action: Action)

  /** `seen`, `high` and `asked` are kept by an observer: what every Node did,
      the highest index any Node has committed, and that height at the moment
      each read was accepted. */
  datatype Cluster = Cluster(
    limit: int,
    hosts: map<NodeId, Host>,
    net: set<Packet>,
    seen: set<Seen>,
    high: nat,
    asked: map<ReadKey, nat>,
    journals: map<NodeId, Journal>)

  function JournalOf(c: Cluster, id: NodeId): Journal { Get(c.journals, id, Journal([], [])) }

  /** What makes a Node take a step. */
  datatype Stimulus =
    | Local(event: Event)
    | Message(packet: Packet)
    | Chunk(packet: Packet, staged: Staged)
    | Compaction

  function EventOf(n: Node, stim: Stimulus): Event {
    match stim
    case Local(event) => event
    case Message(p) => Receive(p.from, p.msg)
    case Chunk(p, staged) => ReceiveSnapshot(p.from, p.msg, staged)
    case Compaction => SnapshotCompacted(n.lastApplied, TermAt(n, n.lastApplied))
  }

  predicate Enabled(c: Cluster, id: NodeId, stim: Stimulus) {
    && id in c.hosts
    && match stim
       case Local(ev) =>
         && (ev.ElectionTimeout? || ev.HeartbeatTimeout? || ev.CheckQuorumTimeout? || ev.ConfirmRead?
             || ev.AppendFailed? || ev.ProposeSession? || ev.ProposeSet? || ev.ProposeDelete?)
         && (ev.ConfirmRead? ==> ReadKey(id, c.hosts[id].node.term, ev.readId) !in c.asked)
       case Message(p) => p in c.net && p.to == id && !p.msg.SnapshotRequest?
       case Chunk(p, _) => p in c.net && p.to == id && p.msg.SnapshotRequest?
       case Compaction => true
  }

  /** A rejection a Node sent because the request was from an earlier Term: the
      only AppendReply whose conflict index is 0. */
  predicate StaleRejection(m: Message) {
    m.AppendReply? && !m.success && m.conflictIndex == 0
  }

  /** A Leader acts on a reply of its own Term that answers its current request
      to that peer, or that arrives when it has no request outstanding. */
  predicate ActsOn(n: Node, from: NodeId, m: Message)
    requires m.AppendReply?
  {
    var current := Get(n.inFlight, from, InFlight(0, 0)).requestId;
    n.role == Leader && m.term == n.term && (current == 0 || m.requestId == 0 || m.requestId == current)
  }

  /** The delivery the safety theorems exclude: a Leader acting, in its own
      Term, on the rejection of a request that was sent in an earlier Term. */
  predicate Guarded(c: Cluster, id: NodeId, stim: Stimulus)
    requires id in c.hosts
  {
    stim.Message? && StaleRejection(stim.packet.msg) ==> !ActsOn(c.hosts[id].node, stim.packet.from, stim.packet.msg)
  }

  function Consume(m: Sessions.Machine, image: Sessions.Machine, actions: seq<Action>): Sessions.Machine
    decreases |actions|
  {
    if actions == [] then m
    else
      var prior := Consume(m, image, actions[..|actions| - 1]);
      match actions[|actions| - 1]
      case ApplyEntry(e) => Sessions.Apply(prior, e)
      case RestoreSnapshot(_, _) => image
      case _ => prior
  }

  function Packets(from: NodeId, image: Sessions.Machine, actions: seq<Action>): set<Packet> {
    set a | a in actions && a.Send? :: Packet(from, a.to, a.msg, image)
  }

  function Observed(from: NodeId, actions: seq<Action>): set<Seen> {
    set a | a in actions && !a.Send? :: Seen(from, a)
  }

  /** The Snapshot image a Node owns once its log starts at a new base. */
  function NewImage(h: Host, stim: Stimulus, base: nat): Sessions.Machine {
    if base == h.node.base then h.image
    else if stim.Chunk? then stim.packet.image
    else h.machine
  }

  function Accepts(n: Node, stim: Stimulus): bool {
    stim.Local? && stim.event.ConfirmRead? && n.role == Leader && n.readReady
  }

  /** One complete runtime step. */
  function Run(c: Cluster, id: NodeId, stim: Stimulus): Cluster
    requires id in c.hosts
  {
    var h := c.hosts[id];
    var r := Step(h.node, EventOf(h.node, stim));
    var image := NewImage(h, stim, r.node.base);
    var host := Host(r.node, Consume(h.machine, image, r.actions), image);
    c.(hosts := c.hosts[id := host],
       net := c.net + Packets(id, image, r.actions),
       seen := c.seen + Observed(id, r.actions),
       high := Max(c.high, r.node.commit),
       asked := if Accepts(h.node, stim) then c.asked[ReadKey(id, h.node.term, stim.event.readId) := c.high] else c.asked,
       journals := c.journals[id := Logged(JournalOf(c, id), DurableOf(h.node), r.writes)])
  }

  /** The journal a crash leaves after the first k writes of a step. */
  function JournalAt(c: Cluster, id: NodeId, stim: Stimulus, k: nat): Journal
    requires id in c.hosts
    requires k <= |Step(c.hosts[id].node, EventOf(c.hosts[id].node, stim)).writes|
  {
    var n := c.hosts[id].node;
    Logged(JournalOf(c, id), DurableOf(n), Step(n, EventOf(n, stim)).writes[..k])
  }

  /** What replaying the records after such a crash gives, or why it fails. */
  function RecoveredAt(c: Cluster, id: NodeId, stim: Stimulus, k: nat): Outcome<Durable>
    requires id in c.hosts
    requires k <= |Step(c.hosts[id].node, EventOf(c.hosts[id].node, stim)).writes|
  {
    Recover(JournalAt(c, id, stim, k).records)
  }

  /** The exact durable state such a crash interrupted. */
  function DurableAt(c: Cluster, id: NodeId, stim: Stimulus, k: nat): Durable
    requires id in c.hosts
    requires k <= |Step(c.hosts[id].node, EventOf(c.hosts[id].node, stim)).writes|
  {
    var n := c.hosts[id].node;
    ApplyWrites(DurableOf(n), Step(n, EventOf(n, stim)).writes[..k])
  }

  /** A restart from d after such a crash: nothing the step would have sent
      leaves the Node. */
  function Resume(c: Cluster, id: NodeId, stim: Stimulus, k: nat, d: Durable): Cluster
    requires id in c.hosts
    requires k <= |Step(c.hosts[id].node, EventOf(c.hosts[id].node, stim)).writes|
  {
    var h := c.hosts[id];
    var image := NewImage(h, stim, d.base);
    var fresh' := Restart(id, h.node.peers, d);
    var e := ApplyThrough(fresh', fresh'.commit);
    c.(hosts := c.hosts[id := Host(e.node, Consume(image, image, e.actions), image)],
       seen := c.seen + Observed(id, e.actions),
       high := Max(c.high, e.node.commit),
       journals := c.journals[id := JournalAt(c, id, stim, k)])
  }

  /** Which of the two exclusions a run respects: no Leader acts, in its own Term,
      on the rejection of an earlier Term's request, and no Node restarts from a
      journal whose newest checkpoint misjudges an earlier truncation. */
  datatype Rules = Rules(deliveries: bool, restarts: bool)

  const GUARDED := Rules(true, true)

  /** The journal's newest checkpoint judges every earlier truncation correctly. */
  predicate RestartGuarded(c: Cluster, id: NodeId, stim: Stimulus, k: nat)
    requires id in c.hosts
    requires k <= |Step(c.hosts[id].node, EventOf(c.hosts[id].node, stim)).writes|
  {
    WalHistory.Replayable(JournalAt(c, id, stim, k).written)
  }

  /** A crash after k writes and the restart from what replay makes of the
      records. A Node whose recovery fails does not come back. */
  ghost predicate CrashAt(rules: Rules, c: Cluster, c': Cluster, id: NodeId, stim: Stimulus, k: nat)
    requires id in c.hosts
  {
    && k <= |Step(c.hosts[id].node, EventOf(c.hosts[id].node, stim)).writes|
    && (rules.restarts ==> RestartGuarded(c, id, stim, k))
    && RecoveredAt(c, id, stim, k).Ok?
    && c' == Resume(c, id, stim, k, RecoveredAt(c, id, stim, k).value)
  }

  ghost predicate StepUnder(rules: Rules, c: Cluster, c': Cluster, id: NodeId, stim: Stimulus) {
    && Enabled(c, id, stim)
    && (rules.deliveries ==> Guarded(c, id, stim))
    && (c' == Run(c, id, stim) || exists k: nat :: CrashAt(rules, c, c', id, stim, k))
  }

  ghost predicate NextUnder(rules: Rules, c: Cluster, c': Cluster) {
    exists id, stim :: StepUnder(rules, c, c', id, stim)
  }

  function PeerSet(peers: seq<NodeId>): set<NodeId> { set p | p in peers }

  predicate IsPeerList(members: set<NodeId>, id: NodeId, peers: seq<NodeId>) {
    && (forall i, j :: 0 <= i < j < |peers| ==> peers[i] != peers[j])
    && PeerSet(peers) == members - {id}
  }

  predicate IsStart(c: Cluster) {
    && "" !in c.hosts
    && 0 <= c.limit
    && c.net == {} && c.seen == {} && c.high == 0 && c.asked == map[]
    && (forall id :: id in c.journals ==> c.journals[id] == Journal([], []))
    && forall id :: id in c.hosts ==>
         var h := c.hosts[id];
         && IsPeerList(c.hosts.Keys, id, h.node.peers)
         && h == Host(Restart(id, h.node.peers, Durable(0, "", 0, 0, [], 0)), Sessions.Empty(c.limit), Sessions.Empty(c.limit))
  }

  /** A run: an initial Cluster and any number of steps the rules allow. Rules
      that exclude nothing allow every run. */
  ghost predicate IsRunUnder(rules: Rules, run: seq<Cluster>) {
    && run != [] && IsStart(run[0])
    && forall i :: 0 <= i < |run| - 1 ==> NextUnder(rules, run[i], run[i + 1])
  }

  /** A run with neither excluded event. */
  ghost predicate IsRun(run: seq<Cluster>) { IsRunUnder(GUARDED, run) }
}
