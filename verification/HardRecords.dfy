/** The Term and vote a WAL recovers, whatever becomes of its log: as long as hard
    states were only ever saved forward, every recovery that succeeds at all
    returns the one saved last. */
module HardRecords {
  import opened Types
  import opened Messages
  import opened WalReplay
  import opened WalHistory

  predicate HardsBelow(records: seq<Record>, h: HardState) {
    forall r :: r in records && r.HardRecord? ==> HardBelow(r.hard, h)
  }

  predicate RecoversHard(records: seq<Record>, h: HardState) {
    Recover(records).Ok? ==> HardOf(Recover(records).value) == h
  }

  /** The records hold nothing newer than h, and recovery returns h. */
  predicate KeepsHard(records: seq<Record>, h: HardState) {
    HardsBelow(records, h) && RecoversHard(records, h)
  }

  /** Records at or below a hard state already reached do not move it. */
  lemma {:induction false} ReplayKeepsHard(d: Durable, records: seq<Record>)
    requires HardsBelow(records, HardOf(d))
    ensures var y := ReplayOn(d, records); y.Ok? ==> HardOf(y.value) == HardOf(d)
    decreases |records|
  {
    if records != [] {
      assert records[0] in records;
      var first := ApplyRecord(d, records[0]);
      if first.Ok? {
        RecordKeepsHard(d, records[0]);
        assert forall r :: r in records[1..] ==> r in records;
        ReplayKeepsHard(first.value, records[1..]);
      }
    }
  }

  lemma RecordKeepsHard(d: Durable, r: Record)
    requires r.HardRecord? ==> HardBelow(r.hard, HardOf(d))
    ensures var y := ApplyRecord(d, r); y.Ok? ==> HardOf(y.value) == HardOf(d)
  {
  }

  /** A saved hard state is the one recovered next. */
  lemma AfterHard(records: seq<Record>, h: HardState, h': HardState)
    requires KeepsHard(records, h) && HardBelow(h, h')
    ensures KeepsHard(records + [HardRecord(h')], h')
  {
    Appended(records, HardRecord(h'));
  }

  /** Recovery after one more record that is not a checkpoint. */
  lemma Appended(records: seq<Record>, r: Record)
    requires !r.CheckpointRecord?
    ensures var y := Recover(records);
            Recover(records + [r]) == if y.Err? then y else ApplyRecord(y.value, r)
  {
    StartConcat(BLANK, records, [r]);
    var start := StartFrom(BLANK, records);
    if start.Ok? {
      StartSingle(start.value, r);
      ReplayConcat(start.value, records, [r]);
      var y := ReplayOn(start.value, records);
      if y.Ok? { FoldOne(y.value, r); }
    }
  }

  lemma AfterOther(records: seq<Record>, h: HardState, r: Record)
    requires KeepsHard(records, h) && !r.HardRecord? && !r.CheckpointRecord?
    ensures KeepsHard(records + [r], h)
  {
    Appended(records, r);
  }

  /** A checkpoint carries the hard state, so recovery starts from it. */
  lemma AfterCheckpoint(records: seq<Record>, h: HardState, r: Record)
    requires KeepsHard(records, h) && r.CheckpointRecord? && r.hard == h
    ensures KeepsHard(records + [r], h)
  {
    StartConcat(BLANK, records, [r]);
    var start := StartFrom(BLANK, records);
    if start.Ok? && CheckpointValid(r) {
      StartSingle(start.value, r);
      ReplayKeepsHard(StartOf(Mark(r.hard, r.commit, r.index, r.snapTerm)), records + [r]);
    } else if start.Ok? {
      assert StartFrom(start.value, [r]).Err?;
    }
  }

  lemma AfterWrite(d: Durable, w: Write, records: seq<Record>)
    requires KeepsHard(records, HardOf(d)) && HardBelow(HardOf(d), HardOf(ApplyWrite(d, w)))
    ensures KeepsHard(records + RecordsOf(d, w), HardOf(ApplyWrite(d, w)))
  {
    hide KeepsHard;
    match w
    case SaveHardState(term, votedFor) => AfterHard(records, HardOf(d), HardState(term, votedFor));
    case Truncate(from) => AfterOther(records, HardOf(d), TruncationRecord(from));
    case Append(e) => AfterOther(records, HardOf(d), EntryRecord(e));
    case SaveCommit(index) =>
      assert records + [] == records;
      AfterOther(records, HardOf(d), CommitRecord(index));
    case Checkpoint(index, snapTerm, keep) =>
      var from := TruncateFromOf(d, w);
      var cp := CheckpointRecord(HardOf(d), Max(d.commit, index), index, snapTerm, from);
      AfterCheckpoint(records, HardOf(d), cp);
      assert [cp] + [] == [cp];
      if from != 0 {
        AfterOther(records + [cp], HardOf(d), TruncationRecord(from));
        assert records + ([cp] + [TruncationRecord(from)]) == records + [cp] + [TruncationRecord(from)];
      }
  }

  /** Every hard state in the writes is h, which is not below where they start. */
  predicate SavesHard(d: Durable, ws: seq<Write>, h: HardState) {
    HardBelow(HardOf(d), h) && forall w :: w in ws && w.SaveHardState? ==> HardState(w.term, w.votedFor) == h
  }

  lemma {:induction false} AfterWrites(d: Durable, ws: seq<Write>, h: HardState, records: seq<Record>)
    requires KeepsHard(records, HardOf(d)) && SavesHard(d, ws, h)
    ensures KeepsHard(records + Records(d, ws), HardOf(Live(d, ws))) && (HardOf(Live(d, ws)) == HardOf(d) || HardOf(Live(d, ws)) == h)
    decreases |ws|
  {
    hide KeepsHard;
    if ws == [] {
      assert records + [] == records;
    } else {
      assert ws[0] in ws;
      var d' := ApplyWrite(d, ws[0]);
      AfterWrite(d, ws[0], records);
      assert forall w :: w in ws[1..] ==> w in ws;
      AfterWrites(d', ws[1..], h, records + RecordsOf(d, ws[0]));
      assert records + RecordsOf(d, ws[0]) + Records(d', ws[1..]) == records + Records(d, ws);
    }
  }
}
