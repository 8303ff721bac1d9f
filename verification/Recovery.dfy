/** Opening a Node after a crash: choosing the Snapshot that goes with the
    recovered WAL state (internal/snapshot/snapshot.go) and rebuilding the core
    from both (openRaftRuntime). */
module Recovery {
  import opened Types
  import opened Messages
  import opened Node
  import opened Cluster
  import opened Machines
  import opened WalReplay
  import opened WalHistory
  import opened RaftNode
  import opened Agreement
  import opened WalStore
  import opened Runtime
  import opened Draining
  import Sessions

  /** A Snapshot file: the position in its name, and what reading it yields.
      `serial` stands for the rest of the name; names compare by position first. */
  datatype File = File(nameIndex: nat, nameTerm: nat, serial: nat, readable: bool, ours: bool,
                       index: nat, term: nat, image: Sessions.Machine)

  datatype Choice = Failed | NoneFound | Chosen(file: File)

  // ---------------------------------------------------------------------- matching

  /** The code's test that a Snapshot's position lies in the recovered WAL. */
  predicate MatchesWal(f: File, d: Durable) {
    if f.index > d.commit then false
    else if f.index == 0 then f.term == 0
    else if f.index == d.base then f.term == d.baseTerm
    else if f.index < d.base + 1 then false
    else if f.index - (d.base + 1) >= |d.log| then false
    else d.log[f.index - (d.base + 1)].term == f.term
  }

  /** A position the WAL has committed and can still name the Term of. */
  predicate Committed(d: Durable, index: nat, term: nat) {
    index <= d.commit
    && ((index == 0 && term == 0)
        || (0 < index && d.base <= index <= Last(d) && term == if index == d.base then d.baseTerm else d.log[index - d.base - 1].term))
  }

  lemma MatchesIff(f: File, d: Durable)
    ensures MatchesWal(f, d) <==> Committed(d, f.index, f.term)
  {
  }

  // ---------------------------------------------------------------------- choosing

  predicate NamedFor(f: File, d: Durable) { f.nameIndex == d.base && f.nameTerm == d.baseTerm }

  predicate Proper(f: File, d: Durable) { f.readable && f.index == d.base && f.term == d.baseTerm && f.ours }

  /** The Snapshot the WAL's checkpoint was written for is there and intact. */
  predicate HasCheckpoint(files: seq<File>, d: Durable) {
    (exists f :: f in files && NamedFor(f, d)) && (forall f :: f in files && NamedFor(f, d) ==> Proper(f, d))
  }

  predicate Usable(f: File) { f.readable && f.ours }

  predicate Fails(files: seq<File>, d: Durable) {
    || (d.base > 0 && !HasCheckpoint(files, d))
    || (exists f :: f in files && !Usable(f))
    || (d.base > 0 && forall f :: f in files ==> !MatchesWal(f, d))
  }

  predicate NameAfter(f: File, g: File) {
    f.nameIndex > g.nameIndex
    || (f.nameIndex == g.nameIndex && (f.nameTerm > g.nameTerm || (f.nameTerm == g.nameTerm && f.serial > g.serial)))
  }

  /** The order by which one compatible Snapshot is preferred to another. */
  predicate Newer(f: File, g: File) {
    f.index > g.index || (f.index == g.index && (f.term > g.term || (f.term == g.term && NameAfter(f, g))))
  }

  predicate Newest(f: File, files: seq<File>, d: Durable) {
    f in files && MatchesWal(f, d) && forall g :: g in files && MatchesWal(g, d) ==> !Newer(g, f)
  }

  method RequireCheckpoint(files: seq<File>, d: Durable) returns (ok: bool)
    ensures ok <==> HasCheckpoint(files, d)
  {
    var found := false;
    for i := 0 to |files|
      invariant found <==> exists f :: f in files[..i] && NamedFor(f, d)
    {
      assert files[..i + 1] == files[..i] + [files[i]];
      if NamedFor(files[i], d) { found := true; }
    }
    assert files[..|files|] == files;
    if !found { return false; }
    for i := 0 to |files|
      invariant forall f :: f in files[..i] && NamedFor(f, d) ==> Proper(f, d)
    {
      assert files[..i + 1] == files[..i] + [files[i]];
      if NamedFor(files[i], d) && !Proper(files[i], d) {
        assert files[i] in files;
        return false;
      }
    }
    return true;
  }

  /** The newest Snapshot that goes with the WAL, whatever order the files come in. */
  method LoadNewest(files: seq<File>, d: Durable) returns (choice: Choice)
    ensures choice.Failed? <==> Fails(files, d)
    ensures choice.NoneFound? ==> d.base == 0 && forall f :: f in files ==> !MatchesWal(f, d)
    ensures choice.Chosen? ==> Newest(choice.file, files, d)
  {
    if d.base > 0 {
      var ok := RequireCheckpoint(files, d);
      if !ok { return Failed; }
    }
    choice := NoneFound;
    for i := 0 to |files|
      invariant forall f :: f in files[..i] ==> Usable(f)
      invariant !choice.Failed?
      invariant choice.NoneFound? ==> forall f :: f in files[..i] ==> !MatchesWal(f, d)
      invariant choice.Chosen? ==> Newest(choice.file, files[..i], d)
    {
      assert files[..i + 1] == files[..i] + [files[i]];
      var f := files[i];
      if !Usable(f) {
        assert f in files;
        return Failed;
      }
      if MatchesWal(f, d) && (choice.NoneFound? || Newer(f, choice.file)) {
        choice := Chosen(f);
      }
    }
    assert files[..|files|] == files;
    if d.base > 0 && choice.NoneFound? { return Failed; }
  }

  /** For a recovered WAL the last failure never arises on its own: an intact
      checkpoint Snapshot is compatible, so something at or after it is chosen. */
  lemma CheckpointIsCompatible(files: seq<File>, d: Durable)
    requires 0 < d.base <= d.commit && HasCheckpoint(files, d)
    ensures exists f :: f in files && MatchesWal(f, d)
    ensures forall f :: Newest(f, files, d) ==> d.base <= f.index
  {
    var f :| f in files && NamedFor(f, d);
    assert Proper(f, d) && MatchesWal(f, d);
  }

  // ---------------------------------------------------------------------- opening

  function Position(choice: Choice): (nat, nat) { if choice.Chosen? then (choice.file.index, choice.file.term) else (0, 0) }

  /** The entries after the Snapshot, found by walking over the covered ones. */
  method Suffix(log: seq<Entry>, base: nat, index: nat) returns (suffix: seq<Entry>)
    requires WellIndexed(log, base) && base <= index <= base + |log|
    ensures suffix == log[index - base..]
  {
    var first := 0;
    while first < |log| && log[first].index <= index
      invariant first <= |log| && base + first <= index
    {
      first := first + 1;
    }
    suffix := log[first..];
  }

  /** What NewNodeFromRecoveredState does first: cut a log that still starts at
      index 1 behind the Snapshot. */
  function Trimmed(log: seq<Entry>, index: nat): seq<Entry> {
    if index > 0 && log != [] && log[0].index == 1 && index <= |log| then log[index..] else log
  }

  /** Opening fails exactly when the Snapshot choice does; otherwise the core is
      well formed, idle and a Follower, its Snapshot is applied, its log is the
      durable log behind the Snapshot, and its log end, Term, vote and commit
      index are the durable ones; so a runtime can go on from there. */
  method Open(id: NodeId, peers: seq<NodeId>, d: Durable, files: seq<File>) returns (choice: Choice, core: RaftCore?)
    requires WellFormed(d) && (d.base == 0 ==> d.baseTerm == 0)
    requires forall i, j :: 0 <= i < j < |peers| ==> peers[i] != peers[j]
    ensures choice.Failed? <==> Fails(files, d)
    ensures choice.Failed? <==> core == null
    ensures choice.Chosen? ==> Newest(choice.file, files, d)
    ensures core != null ==> var p := Position(choice);
              && d.base <= p.0 <= d.commit && Committed(d, p.0, p.1)
              && core.Valid() && Idle(core.Value()) && core.node == Restart(id, peers, From(d, p.0, p.1))
              && core.lastLogIndex == Last(d) && core.durableLogIndex == Last(d) && Agrees(d, core.node)
  {
    choice := LoadNewest(files, d);
    core := null;
    if !choice.Failed? {
      var p := Position(choice);
      ChosenCommitted(files, d, choice);
      var suffix := Suffix(d.log, d.base, p.0);
      assert Trimmed(suffix, p.0) == suffix;
      core := new RaftCore.Recovered(id, peers, d.(base := p.0, baseTerm := p.1, log := Trimmed(suffix, p.0)));
      IdleEnds(core);
    }
  }

  /** Opening a Node again from the records found and the Snapshot files: a runtime
      that goes on with the recovered WAL state and the chosen Snapshot. */
  method Reopen(id: NodeId, peers: seq<NodeId>, d: Durable, ghost found: seq<Record>, files: seq<File>) returns (choice: Choice, rt: RaftRuntime?)
    requires WellFormed(d) && Recover(found) == Ok(d) && (d.base == 0 ==> d.baseTerm == 0)
    requires forall i, j :: 0 <= i < j < |peers| ==> peers[i] != peers[j]
    ensures choice.Failed? <==> Fails(files, d)
    ensures choice.Failed? <==> rt == null
    ensures rt != null ==> var p := Position(choice);
              && rt.Valid() && rt.wal.live == d && rt.wal.records == found && rt.wal.history == []
              && d.base <= p.0 <= d.commit && rt.core.node == Restart(id, peers, From(d, p.0, p.1))
  {
    hide Fails, Newest, Agrees, Committed, Idle;
    rt := null;
    var core;
    choice, core := Open(id, peers, d, files);
    if core != null {
      var wal := new Wal.Reopened(d, found);
      rt := new RaftRuntime(core, wal);
    }
  }

  lemma ChosenCommitted(files: seq<File>, d: Durable, choice: Choice)
    requires WellFormed(d) && (d.base == 0 ==> d.baseTerm == 0)
    requires !choice.Failed? && !Fails(files, d)
    requires choice.NoneFound? ==> d.base == 0
    requires choice.Chosen? ==> Newest(choice.file, files, d)
    ensures var p := Position(choice); d.base <= p.0 <= d.commit && Committed(d, p.0, p.1)
  {
    if d.base > 0 { CheckpointIsCompatible(files, d); }
    if choice.Chosen? { MatchesIff(choice.file, d); }
  }

  lemma IdleEnds(core: RaftCore)
    requires core.Valid() && Idle(core.Value())
    ensures core.lastLogIndex == LastIndex(core.node) && core.durableLogIndex == core.lastLogIndex
  {
  }

  // --------------------------------------------------- the choice does not matter

  /** Whichever committed position recovery starts from, once it has applied the
      committed entries after that Snapshot the Node is the one recovery from the
      checkpoint would give, compacted to that position, and its state machine
      is the same. `whole` is the complete log and every image is its fold. */
  lemma AnyCommittedSnapshotWillDo(id: NodeId, peers: seq<NodeId>, d: Durable, whole: seq<Entry>, limit: int, index: nat, term: nat)
    requires WellFormed(d) && d.base <= index <= d.commit
    requires |whole| == Last(d) && whole[d.base..] == d.log
    ensures var e := ApplyThrough(Restart(id, peers, From(d, index, term)), d.commit);
            var image := Sessions.Replay(Sessions.Empty(limit), whole[..index]);
            && Consume(image, image, e.actions) == Sessions.Replay(Sessions.Empty(limit), whole[..d.commit])
            && e.node == Restart(id, peers, From(d, index, term)).(lastApplied := d.commit)
  {
    hide ApplyThrough, Consume, Applied;
    var image := Sessions.Replay(Sessions.Empty(limit), whole[..index]);
    var n := Restart(id, peers, From(d, index, term));
    ApplyThroughQuiet(n, d.commit);
    ApplyThroughApplies(n, d.commit);
    var e := ApplyThrough(n, d.commit);
    ConsumeReplays(image, image, e.actions);
    SlicesOf(whole, d.base, index, d.commit);
    Machines.ReplayConcat(Sessions.Empty(limit), whole[..index], whole[index..d.commit]);
  }

  lemma SlicesOf(whole: seq<Entry>, base: nat, index: nat, end: nat)
    requires base <= index <= end <= |whole|
    ensures whole[base..][index - base..][..end - index] == whole[index..end] && whole[..index] + whole[index..end] == whole[..end]
  {
  }

  /** A recovering Follower with no reads moves nothing but its applied index. */
  lemma {:induction false} ApplyThroughQuiet(n: Node, index: nat)
    requires n.role == Follower && n.waiting == map[] && n.base <= n.lastApplied <= index <= LastIndex(n)
    ensures ApplyThrough(n, index).node == n.(lastApplied := index)
    decreases index - n.lastApplied
  {
    if n.lastApplied < index {
      ApplyThroughQuiet(ApplyOne(n).node, index);
    } else {
      assert ReadyReads(n) == {};
    }
  }
}
