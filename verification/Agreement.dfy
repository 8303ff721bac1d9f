/** A WAL and a core need not start at the same Snapshot: after a restart the core
    may start at a later one whose file was there. From the core's Snapshot on they
    agree, and every step keeps it so. */
module Agreement {
  import opened Types
  import opened Messages
  import opened Node
  import opened Durability
  import opened WalReplay

  /** The durable state as seen from a later Snapshot position. */
  function From(d: Durable, index: nat, term: nat): Durable
    requires d.base <= index <= Last(d)
  {
    d.(base := index, baseTerm := term, log := d.log[index - d.base..])
  }

  function TermIn(d: Durable, index: nat): nat
    requires d.base <= index <= Last(d)
  {
    if index == d.base then d.baseTerm else d.log[index - d.base - 1].term
  }

  /** From the core's Snapshot on, the WAL holds exactly what the core takes for
      durable. */
  predicate Agrees(d: Durable, n: Node) {
    d.base <= n.base <= Last(d) && n.baseTerm == TermIn(d, n.base) && DurableOf(n) == From(d, n.base, n.baseTerm)
  }

  lemma AgreesSelf(n: Node)
    ensures Agrees(DurableOf(n), n)
  {
    assert n.log[0..] == n.log;
  }

  /** Truncations above a position, and at most one checkpoint, at the end and not
      below it. */
  predicate Ahead(ws: seq<Write>, index: nat) {
    forall i :: 0 <= i < |ws| ==>
      && (ws[i].Truncate? ==> index < ws[i].from)
      && (ws[i].Checkpoint? ==> i == |ws| - 1 && index <= ws[i].index)
  }

  lemma WriteAgrees(d: Durable, index: nat, term: nat, w: Write)
    requires d.base <= index <= Last(d) && (w.Truncate? ==> index < w.from) && (w.Checkpoint? ==> index <= w.index)
    ensures w.Checkpoint? ==> ApplyWrite(From(d, index, term), w) == ApplyWrite(d, w)
    ensures !w.Checkpoint? ==>
              var d' := ApplyWrite(d, w);
              && d'.base == d.base && index <= Last(d') && TermIn(d', index) == TermIn(d, index)
              && ApplyWrite(From(d, index, term), w) == From(d', index, term)
  {
    match w
    case Truncate(from) => if from <= Last(d) { CutSlice(d.log, index - d.base, from - d.base - 1); }
    case Append(e) => LongerSlice(d.log, index - d.base, e);
    case Checkpoint(k, _, _) => if k <= Last(d) { LaterSlice(d.log, index - d.base, k - d.base); }
    case _ =>
  }

  lemma CutSlice(log: seq<Entry>, i: nat, k: nat)
    requires i <= k <= |log|
    ensures log[..k][i..] == log[i..][..k - i]
  {
  }

  lemma LongerSlice(log: seq<Entry>, i: nat, e: Entry)
    requires i <= |log|
    ensures (log + [e])[i..] == log[i..] + [e]
  {
  }

  lemma LaterSlice(log: seq<Entry>, i: nat, k: nat)
    requires i <= k <= |log|
    ensures log[k..] == log[i..][k - i..]
  {
  }

  lemma {:induction false} WritesAgree(d: Durable, index: nat, term: nat, ws: seq<Write>)
    requires d.base <= index <= Last(d) && Ahead(ws, index) && (forall w :: w in ws ==> !w.Checkpoint?)
    ensures var d' := ApplyWrites(d, ws);
            && d'.base == d.base && index <= Last(d') && TermIn(d', index) == TermIn(d, index)
            && ApplyWrites(From(d, index, term), ws) == From(d', index, term)
    decreases |ws|
  {
    if ws != [] {
      var k := |ws| - 1;
      assert ws == ws[..k] + [ws[k]];
      WritesAgree(d, index, term, ws[..k]);
      WriteAgrees(ApplyWrites(d, ws[..k]), index, term, ws[k]);
    }
  }

  /** Writes that are ahead of the core's Snapshot keep the agreement. */
  lemma StaysAgreed(d: Durable, n: Node, ws: seq<Write>, n': Node)
    requires Agrees(d, n) && Ahead(ws, n.base) && ApplyWrites(DurableOf(n), ws) == DurableOf(n')
    ensures Agrees(ApplyWrites(d, ws), n')
  {
    hide From, TermIn, ApplyWrite;
    if ws != [] && ws[|ws| - 1].Checkpoint? {
      var k := |ws| - 1;
      WritesAgree(d, n.base, n.baseTerm, ws[..k]);
      WriteAgrees(ApplyWrites(d, ws[..k]), n.base, n.baseTerm, ws[k]);
      assert ApplyWrites(d, ws) == DurableOf(n');
      AgreesSelf(n');
    } else {
      WritesAgree(d, n.base, n.baseTerm, ws);
      FromStarts(ApplyWrites(d, ws), n.base, n.baseTerm);
    }
  }

  lemma FromStarts(d: Durable, index: nat, term: nat)
    requires d.base <= index <= Last(d)
    ensures From(d, index, term).base == index && From(d, index, term).baseTerm == term
  {
  }

  // ------------------------------------------------------------------------ every step

  predicate Steady(ws: seq<Write>) { forall w :: w in ws ==> !w.Truncate? && !w.Checkpoint? }

  lemma SteadyAhead(ws: seq<Write>, index: nat)
    requires Steady(ws)
    ensures Ahead(ws, index)
  {
  }

  lemma LocalSteady(n: Node, ev: Event)
    requires !ev.Receive? && !ev.ReceiveSnapshot? && !ev.SnapshotCompacted?
    ensures Steady(Step(n, ev).writes)
  {
    hide SendAll, Broadcast, ApplyThrough;
  }

  lemma MessageSteady(n: Node, from: NodeId, m: Message)
    requires !m.AppendRequest?
    ensures Steady(OnReceive(n, from, m).writes)
  {
    hide SendAll, SendTo, AckRead, ApplyThrough, NoteReply, LeaderCommit, PendingReadFor, Broadcast, InitialNext;
  }

  lemma {:induction false} PlanAhead(n: Node, want: nat, entries: seq<Entry>)
    ensures var plan := PlanAppend(n, want, entries); plan.Store? && plan.truncateFrom != 0 ==> n.commit < plan.truncateFrom
    decreases |entries|
  {
    if entries != [] { PlanAhead(n, want + 1, entries[1..]); }
  }

  lemma AppendAhead(n: Node, from: NodeId, m: Message)
    requires m.AppendRequest? && n.base <= n.commit
    ensures Ahead(OnAppendRequest(n, from, m).writes, n.base)
  {
    hide Recognise, PlanAppend, Matches, ConflictHint, StoreEntries, ApplyThrough;
    if n.term <= m.term {
      var n1 := Recognise(n, m.term, from);
      RecogniseLog(n, m.term, from);
      PlanAhead(n1, m.prevIndex + 1, m.entries);
    }
  }

  lemma RecogniseLog(n: Node, term: nat, from: NodeId)
    ensures var n1 := Recognise(n, term, from); n1.base == n.base && n1.commit == n.commit
  {
  }

  lemma TransferAhead(n: Node, from: NodeId, m: Message, st: Staged)
    requires m.SnapshotRequest?
    ensures Ahead(OnSnapshotRequest(n, from, m, st).writes, n.base)
  {
    hide Recognise, Install, TermAt;
    RecogniseLog(n, m.term, from);
  }

  /** What a step writes is ahead of the core's Snapshot. */
  lemma StepAhead(n: Node, ev: Event)
    requires n.base <= n.commit && !ev.SnapshotCompacted?
    ensures Ahead(Step(n, ev).writes, n.base)
  {
    hide Ahead, Steady, OnReceive, OnSnapshotRequest, OnAppendRequest;
    match ev
    case Receive(from, m) =>
      if m.AppendRequest? {
        AppendAhead(n, from, m);
        ReceiveAppend(n, from, m);
      } else {
        MessageSteady(n, from, m);
        SteadyAhead(OnReceive(n, from, m).writes, n.base);
      }
    case ReceiveSnapshot(from, m, st) =>
      if m.SnapshotRequest? { TransferAhead(n, from, m, st); } else { NoneAhead(n.base); }
    case _ =>
      LocalSteady(n, ev);
      SteadyAhead(Step(n, ev).writes, n.base);
  }

  lemma ReceiveAppend(n: Node, from: NodeId, m: Message)
    requires m.AppendRequest?
    ensures OnReceive(n, from, m) == OnAppendRequest(n, from, m)
  {
  }

  lemma NoneAhead(index: nat)
    ensures Ahead([], index)
  {
  }

  /** Every step keeps the agreement. */
  lemma StepAgrees(d: Durable, n: Node, ev: Event)
    requires Agrees(d, n) && n.base <= n.commit && !ev.SnapshotCompacted?
    ensures Agrees(ApplyWrites(d, Step(n, ev).writes), Step(n, ev).node)
  {
    hide Step, Ahead, Agrees;
    StepAhead(n, ev);
    WritesCover(n, ev);
    StaysAgreed(d, n, Step(n, ev).writes, Step(n, ev).node);
  }

  /** So does a checkpoint at the core's last applied index followed by the core's
      own compaction, after which both start at the same Snapshot. */
  lemma CompactionAgrees(d: Durable, n: Node, index: nat)
    requires Agrees(d, n) && n.base <= n.lastApplied <= n.commit <= LastIndex(n) && index == n.lastApplied
    ensures var term := TermAt(n, index);
            ApplyWrite(d, Checkpoint(index, term, true)) == DurableOf(OnCompacted(n, index, term).node)
  {
    if index == n.base { assert n.log[0..] == n.log; }
    WriteAgrees(d, n.base, n.baseTerm, Checkpoint(index, TermAt(n, index), true));
  }
}
