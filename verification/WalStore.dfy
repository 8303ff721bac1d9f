/** The open WAL of internal/wal/wal.go: what it checks before it writes, the
    positions it keeps in memory, and its running count of retained log bytes.
    The live state it stands for, and the records behind it, are ghost. */
module WalStore {
  import opened Types
  import opened Messages
  import opened WalReplay
  import opened WalHistory
  import opened Durability

  /** The frame of one log-entry record: header, kind, fixed fields, key, value. */
  function FrameBytes(e: Entry): nat { 8 + 1 + 49 + |e.key| + |e.value| }

  /** The frame bytes of the first k entries. */
  function BytesUpTo(log: seq<Entry>, k: nat): nat
    requires k <= |log|
  {
    if k == 0 then 0 else BytesUpTo(log, k - 1) + FrameBytes(log[k - 1])
  }

  lemma {:induction false} BytesPrefix(a: seq<Entry>, b: seq<Entry>, k: nat)
    requires k <= |a| && k <= |b| && a[..k] == b[..k]
    ensures BytesUpTo(a, k) == BytesUpTo(b, k)
  {
    if k > 0 {
      assert a[k - 1] == a[..k][k - 1] == b[..k][k - 1];
      assert a[..k - 1] == a[..k][..k - 1] == b[..k][..k - 1] == b[..k - 1];
      BytesPrefix(a, b, k - 1);
    }
  }

  /** The byte count of every entry, by index. */
  function SizesOf(log: seq<Entry>, base: nat): map<nat, nat> {
    map i: nat | base < i <= base + |log| :: SizeAt(log, base, i)
  }

  function SizeAt(log: seq<Entry>, base: nat, i: nat): nat
    requires base < i <= base + |log|
  {
    FrameBytes(log[i - base - 1])
  }

  function Without(sizes: map<nat, nat>, first: nat, last: nat): map<nat, nat> {
    map i | i in sizes && !(first <= i <= last) :: sizes[i]
  }

  lemma SizesAppend(log: seq<Entry>, base: nat, e: Entry)
    ensures SizesOf(log + [e], base) == SizesOf(log, base)[base + |log| + 1 := FrameBytes(e)]
  {
  }

  lemma SizesTruncate(log: seq<Entry>, base: nat, k: nat)
    requires k <= |log|
    ensures SizesOf(log[..k], base) == Without(SizesOf(log, base), base + k + 1, base + |log|)
  {
  }

  lemma SizesDrop(log: seq<Entry>, base: nat, k: nat)
    requires k <= |log|
    ensures SizesOf(log[k..], base + k) == Without(SizesOf(log, base), 0, base + k)
  {
  }

  /** Forgetting the removed suffix and the covered prefix leaves what is retained. */
  lemma CheckpointSizes(d: Durable, w: Write)
    requires WellFormed(d) && w.Checkpoint? && d.base <= w.index
    ensures var sizes := SizesOf(d.log, d.base);
            var cut := if !w.keep && w.index < Last(d) then Without(sizes, w.index + 1, Last(d)) else sizes;
            SizesOf(ApplyWrite(d, w).log, w.index) == Without(cut, 0, w.index)
  {
    if w.keep && w.index <= Last(d) { SizesDrop(d.log, d.base, w.index - d.base); }
  }

  lemma NoBytes(log: seq<Entry>)
    ensures BytesUpTo(log, 0) == 0
  {
  }

  /** Where a checkpoint leaves the positions. */
  lemma CheckpointPositions(d: Durable, w: Write)
    requires WellFormed(d) && w.Checkpoint? && d.base <= w.index && (!w.keep ==> d.commit <= w.index)
    ensures var d' := ApplyWrite(d, w);
            && WellFormed(d') && HardOf(d') == HardOf(d) && d'.base == w.index && d'.baseTerm == w.snapTerm
            && d'.commit == Max(d.commit, w.index) && Last(d') == if w.keep then Max(Last(d), w.index) else w.index
  {
  }

  /** The byte counts kept for the indices after `low`, up to `high`. */
  function SizesBetween(sizes: map<nat, nat>, low: nat, high: nat): nat
    decreases high
  {
    if high <= low then 0 else SizesBetween(sizes, low, high - 1) + Get(sizes, high, 0)
  }

  /** For indices within the log those are the frame bytes of its entries. */
  lemma {:induction false} SizesAreBytes(log: seq<Entry>, base: nat, low: nat, high: nat)
    requires base <= low <= high <= base + |log|
    ensures BytesUpTo(log, high - base) == BytesUpTo(log, low - base) + SizesBetween(SizesOf(log, base), low, high)
    decreases high
  {
    if high > low { SizesAreBytes(log, base, low, high - 1); }
  }

  /** What saving entries leaves, as one write each. */
  lemma {:induction false} AppendsWritten(d: Durable, entries: seq<Entry>)
    ensures Live(d, Appends(entries)) == d.(log := d.log + entries)
    ensures Records(d, Appends(entries)) == seq(|entries|, i requires 0 <= i < |entries| => EntryRecord(entries[i]))
    decreases |entries|
  {
    if entries == [] {
      assert d.log + entries == d.log;
    } else {
      AppendsWritten(d.(log := d.log + [entries[0]]), entries[1..]);
      assert Appends(entries)[1..] == Appends(entries[1..]);
      assert d.log + [entries[0]] + entries[1..] == d.log + entries;
    }
  }

  /** Below the Snapshot there is nothing to forget. */
  lemma CoversNothing(d: Durable, index: nat)
    requires WellFormed(d) && index < d.base
    ensures Without(SizesOf(d.log, d.base), 0, index) == SizesOf(d.log, d.base) && index <= d.commit <= Last(d)
  {
  }

  lemma GoesBack(records: seq<Record>, d: Durable, index: nat, term: nat)
    requires OnRecord(records, d.base) && index < d.base
    ensures Recover(records + [CheckpointRecord(HardOf(d), d.commit, index, term, 0)]).Err?
  {
    hide Recover;
    var low := CheckpointRecord(HardOf(d), d.commit, index, term, 0);
    var high :| high in records && IsMark(high, d.base);
    BackwardsFails(records, low, [], high);
    assert records + [low] + [] == records + [low];
  }

  lemma MarkRecorded(records: seq<Record>, d: Durable, w: Write)
    requires w.Checkpoint?
    ensures OnRecord(records + RecordsOf(d, w), w.index)
  {
    var r := RecordsOf(d, w)[0];
    assert r in records + RecordsOf(d, w) && IsMark(r, w.index);
  }

  class Wal {
    var hardState: HardState
    var snapshotIndex: nat
    var snapshotTerm: nat
    var lastLogIndex: nat
    var commitIndex: nat
    var entryBytes: map<nat, nat>
    var retainedThroughIndex: nat
    var retainedBytes: nat

    /** The state the WAL was opened with, the records found then, and every write
        since; the live state and all records, which those determine; and whether
        every query for retained bytes so far was at a committed index. */
    ghost var origin: Durable
    ghost var past: seq<Record>
    ghost var history: seq<Write>
    ghost var live: Durable
    ghost var records: seq<Record>
    ghost var exact: bool

    ghost predicate Told()
      reads `origin, `past, `history, `live, `records
    {
      live == Live(origin, history) && records == past + Records(origin, history)
    }

    ghost predicate Valid()
      reads this
    {
      && WellFormed(live) && Told() && OnRecord(records, snapshotIndex)
      && hardState == HardOf(live) && snapshotIndex == live.base && snapshotTerm == live.baseTerm
      && lastLogIndex == Last(live) && commitIndex == live.commit
      && entryBytes == SizesOf(live.log, live.base)
      && snapshotIndex <= retainedThroughIndex
      && (exact ==> retainedThroughIndex <= commitIndex && retainedBytes == BytesUpTo(live.log, retainedThroughIndex - snapshotIndex))
    }

    /** The write reached the disk: one more write in the history, with its records. */
    twostate predicate Wrote(w: Write)
      reads this
    {
      && origin == old(origin) && past == old(past) && history == old(history) + [w]
      && live == ApplyWrite(old(live), w) && records == old(records) + RecordsOf(old(live), w)
    }

    twostate predicate Untouched()
      reads this
    {
      origin == old(origin) && past == old(past) && history == old(history) && live == old(live) && records == old(records)
    }

    /** Takes down one write, whatever the positions in memory. */
    ghost method Tell(w: Write)
      requires Told()
      modifies `history, `live, `records
      ensures Told() && Wrote(w)
      ensures old(OnRecord(records, snapshotIndex)) ==> OnRecord(records, snapshotIndex)
    {
      if OnRecord(records, snapshotIndex) { StaysOnRecord(records, RecordsOf(live, w), snapshotIndex); }
      hide ApplyWrite, RecordsOf;
      OneMoreWrite(origin, history, w);
      assert past + (Records(origin, history) + RecordsOf(live, w)) == past + Records(origin, history) + RecordsOf(live, w);
      records := records + RecordsOf(live, w);
      live := ApplyWrite(live, w);
      history := history + [w];
    }

    ghost method TellEntries(entries: seq<Entry>)
      requires Told() && OnRecord(records, snapshotIndex)
      modifies `history, `live, `records
      ensures OnRecord(records, snapshotIndex)
      ensures Told() && history == old(history) + Appends(entries) && live == old(live).(log := old(live).log + entries)
      ensures records == old(records) + seq(|entries|, i requires 0 <= i < |entries| => EntryRecord(entries[i]))
    {
      AppendsWritten(live, entries);
      HistoryConcat(origin, history, Appends(entries));
      var more := Records(live, Appends(entries));
      StaysOnRecord(records, more, snapshotIndex);
      assert past + (Records(origin, history) + more) == past + Records(origin, history) + more;
      records := records + more;
      live := live.(log := live.log + entries);
      history := history + Appends(entries);
    }

    constructor ()
      ensures Valid() && exact && live == origin == BLANK && records == past == [] && history == []
    {
      hardState := HardState(0, "");
      snapshotIndex, snapshotTerm, lastLogIndex, commitIndex := 0, 0, 0, 0;
      entryBytes, retainedThroughIndex, retainedBytes := map[], 0, 0;
      origin, past, history, live, records, exact := BLANK, [], [], BLANK, [], true;
    }

    /** Reopening: the positions and byte counts of what recovery returned. */
    constructor Reopened(recovered: Durable, ghost found: seq<Record>)
      requires WellFormed(recovered) && Recover(found) == Ok(recovered)
      ensures Valid() && exact && live == origin == recovered && records == past == found && history == []
    {
      hide Recover, OnRecord;
      RecoveredOnRecord(found);
      hardState := HardOf(recovered);
      snapshotIndex, snapshotTerm := recovered.base, recovered.baseTerm;
      lastLogIndex, commitIndex := Last(recovered), recovered.commit;
      retainedThroughIndex, retainedBytes := recovered.base, 0;
      origin, past, history, live, records, exact := recovered, found, [], recovered, found, true;
      var sizes: map<nat, nat> := map[];
      var k := 0;
      while k < |recovered.log|
        invariant k <= |recovered.log|
        invariant sizes == SizesOf(recovered.log[..k], recovered.base)
      {
        SizesAppend(recovered.log[..k], recovered.base, recovered.log[k]);
        assert recovered.log[..k] + [recovered.log[k]] == recovered.log[..k + 1];
        sizes := sizes[recovered.log[k].index := FrameBytes(recovered.log[k])];
        k := k + 1;
      }
      assert recovered.log[..k] == recovered.log;
      entryBytes := sizes;
    }

    method SaveHardState(state: HardState)
      requires Valid()
      modifies this
      ensures Valid() && exact == old(exact) && Wrote(Write.SaveHardState(state.term, state.votedFor))
    {
      Tell(Write.SaveHardState(state.term, state.votedFor));
      hardState := state;
    }

    /** Appends entries that continue the log; anything else is refused whole. */
    method SaveLogEntries(entries: seq<Entry>) returns (ok: bool)
      requires Valid()
      modifies this
      ensures Valid()
      ensures ok == (entries != [] && WellIndexed(entries, old(lastLogIndex)))
      ensures !ok ==> Untouched()
      ensures exact == old(exact) && origin == old(origin) && past == old(past)
      ensures ok ==> history == old(history) + Appends(entries) && live == old(live).(log := old(live).log + entries)
      ensures ok ==> records == old(records) + seq(|entries|, i requires 0 <= i < |entries| => EntryRecord(entries[i]))
    {
      hide Told, SizesOf;
      if entries == [] { return false; }
      var offset := 0;
      while offset < |entries|
        invariant offset <= |entries|
        invariant forall i :: 0 <= i < offset ==> entries[i].index == lastLogIndex + i + 1
      {
        if entries[offset].index != lastLogIndex + offset + 1 { return false; }
        offset := offset + 1;
      }
      ghost var before, base := live, live.base;
      assert before.log + entries[..0] == before.log;
      offset := 0;
      while offset < |entries|
        modifies `entryBytes
        invariant offset <= |entries|
        invariant entryBytes == SizesOf(before.log + entries[..offset], base)
      {
        SizesAppend(before.log + entries[..offset], base, entries[offset]);
        assert before.log + entries[..offset] + [entries[offset]] == before.log + entries[..offset + 1];
        entryBytes := entryBytes[entries[offset].index := FrameBytes(entries[offset])];
        offset := offset + 1;
      }
      assert entries[..offset] == entries;
      TellEntries(entries);
      lastLogIndex := lastLogIndex + |entries|;
      if exact { BytesPrefix(before.log, live.log, retainedThroughIndex - snapshotIndex); }
      return true;
    }

    /** Removes the uncommitted end of the log from an index on. */
    method TruncateLog(firstIndex: nat) returns (ok: bool)
      requires Valid()
      modifies this
      ensures Valid() && exact == old(exact)
      ensures ok == (0 < firstIndex <= old(lastLogIndex) + 1 && old(commitIndex) < firstIndex)
      ensures if ok then Wrote(Truncate(firstIndex)) else Untouched()
    {
      hide Told, SizesOf, Without, RecordsOf;
      if firstIndex == 0 || firstIndex > lastLogIndex + 1 { return false; }
      if firstIndex <= commitIndex { return false; }
      ghost var before := live;
      Tell(Truncate(firstIndex));
      ForgetFrom(firstIndex);
      SizesTruncate(before.log, before.base, firstIndex - before.base - 1);
      assert firstIndex == lastLogIndex + 1 ==> before.log[..firstIndex - before.base - 1] == before.log;
      lastLogIndex := firstIndex - 1;
      if exact { BytesPrefix(before.log, live.log, retainedThroughIndex - snapshotIndex); }
      return true;
    }

    /** Drops the byte counts from an index to the end of the log. */
    method ForgetFrom(firstIndex: nat)
      requires 0 < firstIndex
      modifies `entryBytes
      ensures entryBytes == Without(old(entryBytes), firstIndex, lastLogIndex)
    {
      ghost var was := entryBytes;
      var index := firstIndex;
      while index <= lastLogIndex
        modifies `entryBytes
        invariant firstIndex <= index
        invariant entryBytes == Without(was, firstIndex, index - 1)
        invariant firstIndex == index || index <= lastLogIndex + 1
        decreases lastLogIndex + 1 - index
      {
        entryBytes := entryBytes - {index};
        index := index + 1;
      }
    }

    method SaveCommitIndex(index: nat) returns (ok: bool)
      requires Valid()
      modifies this
      ensures Valid() && exact == old(exact)
      ensures ok == (old(commitIndex) <= index <= old(lastLogIndex))
      ensures if ok then Wrote(SaveCommit(index)) else Untouched()
    {
      if index < commitIndex { return false; }
      if index > lastLogIndex { return false; }
      Tell(SaveCommit(index));
      if index == commitIndex { return true; }
      commitIndex := index;
      return true;
    }

    /** Frame bytes of the entries after the Snapshot, counted as far as any
        query so far; each entry is counted once. The count is the direct sum as
        long as every query since the last checkpoint was at a committed index. */
    method RetainedLogBytes(throughIndex: nat) returns (bytes: nat)
      requires Valid()
      modifies `retainedThroughIndex, `retainedBytes, `exact
      ensures Valid() && Untouched()
      ensures retainedThroughIndex == Max(old(retainedThroughIndex), throughIndex)
      ensures bytes == old(retainedBytes) + SizesBetween(entryBytes, old(retainedThroughIndex), throughIndex)
      ensures exact <==> old(exact) && throughIndex <= commitIndex
      ensures exact ==> bytes == BytesUpTo(live.log, retainedThroughIndex - snapshotIndex)
    {
      hide Told, SizesOf;
      ghost var asked, counted := retainedThroughIndex, retainedBytes;
      exact := exact && throughIndex <= commitIndex;
      while retainedThroughIndex < throughIndex
        modifies `retainedThroughIndex, `retainedBytes
        invariant asked <= retainedThroughIndex <= Max(asked, throughIndex)
        invariant retainedBytes == counted + SizesBetween(entryBytes, asked, retainedThroughIndex)
      {
        retainedThroughIndex := retainedThroughIndex + 1;
        retainedBytes := retainedBytes + if retainedThroughIndex in entryBytes then entryBytes[retainedThroughIndex] else 0;
      }
      if exact && asked < throughIndex { SizesAreBytes(live.log, live.base, asked, throughIndex); }
      return retainedBytes;
    }

    /** A checkpoint at a Snapshot the Node captured itself. Nothing compares it
        with the previous Snapshot: if one was received and installed since the
        capture, the checkpoint goes back, and what is then on record cannot be
        recovered. */
    method Compact(index: nat, term: nat) returns (ok: bool)
      requires Valid()
      modifies this
      ensures ok == (0 < index <= old(commitIndex))
      ensures !ok ==> Valid() && Untouched() && exact == old(exact)
      ensures ok && old(snapshotIndex) <= index ==> Valid() && exact && Wrote(Checkpoint(index, term, true))
      ensures ok && index < old(snapshotIndex) ==> WentBack(index, term) && Recover(records).Err?
    {
      if index == 0 || index > commitIndex { return false; }
      InstallCheckpoint(index, term, true);
      return true;
    }

    /** What a checkpoint below the previous Snapshot leaves. */
    twostate predicate WentBack(index: nat, term: nat)
      reads this
    {
      && snapshotIndex == index && snapshotTerm == term && retainedThroughIndex == index && retainedBytes == 0
      && hardState == old(hardState) && commitIndex == old(commitIndex) && lastLogIndex == old(lastLogIndex)
      && entryBytes == old(entryBytes) && history == old(history)
      && records == old(records) + [CheckpointRecord(old(hardState), old(commitIndex), index, term, 0)]
    }

    /** A checkpoint at a Snapshot received from the Leader, which keeps the log
        after it only when asked to. */
    method InstallSnapshot(index: nat, term: nat, retainSuffix: bool) returns (ok: bool)
      requires Valid()
      modifies this
      ensures Valid() && exact == (ok || old(exact))
      ensures ok == (0 < index && 0 < term && old(snapshotIndex) <= index && (retainSuffix || old(commitIndex) <= index))
      ensures if ok then Wrote(Checkpoint(index, term, retainSuffix)) else Untouched()
    {
      if index == 0 || term == 0 || index < snapshotIndex { return false; }
      if !retainSuffix && index < commitIndex { return false; }
      InstallCheckpoint(index, term, retainSuffix);
      return true;
    }

    /** Records the checkpoint, with the truncation it implies, and forgets what
        it covers (installSnapshotCheckpoint and the end of InstallSnapshot). */
    method InstallCheckpoint(index: nat, term: nat, keep: bool)
      requires Valid() && 0 < index && (!keep ==> commitIndex <= index) && (index < snapshotIndex ==> keep)
      modifies this
      ensures old(snapshotIndex) <= index ==> Valid() && exact && Wrote(Checkpoint(index, term, keep))
      ensures index < old(snapshotIndex) ==> WentBack(index, term) && Recover(records).Err?
    {
      hide Told, SizesOf, RecordsOf, ApplyWrite, WellFormed, BytesUpTo, OnRecord, Without, Recover;
      ghost var w, before := Checkpoint(index, term, keep), live;
      if index < snapshotIndex { CoversNothing(live, index); } else { CheckpointSizes(live, w); }
      ForgetCovered(index, keep);
      MoveTo(index, term, keep);
      if index < before.base {
        GoesBack(records, before, index, term);
        records := records + [CheckpointRecord(HardOf(before), before.commit, index, term, 0)];
      } else {
        CheckpointPositions(before, w);
        NoBytes(ApplyWrite(before, w).log);
        MarkRecorded(records, before, w);
        Tell(w);
      }
    }

    method MoveTo(index: nat, term: nat, keep: bool)
      modifies `snapshotIndex, `snapshotTerm, `retainedThroughIndex, `retainedBytes, `exact, `commitIndex, `lastLogIndex
      ensures snapshotIndex == index && snapshotTerm == term && retainedThroughIndex == index && retainedBytes == 0 && exact
      ensures commitIndex == Max(old(commitIndex), index) && lastLogIndex == if keep then Max(old(lastLogIndex), index) else index
    {
      snapshotIndex, snapshotTerm := index, term;
      retainedThroughIndex, retainedBytes, exact := index, 0, true;
      commitIndex := Max(commitIndex, index);
      lastLogIndex := if keep then Max(lastLogIndex, index) else index;
    }

    /** Drops the byte counts of what a checkpoint removes and covers. */
    method ForgetCovered(index: nat, keep: bool)
      modifies `entryBytes
      ensures entryBytes == Without(if !keep && index < lastLogIndex then Without(old(entryBytes), index + 1, lastLogIndex) else old(entryBytes), 0, index)
    {
      if !keep && index < lastLogIndex { ForgetFrom(index + 1); }
      entryBytes := Without(entryBytes, 0, index);
    }
  }
}
