/** WAL replay refines the live state: for every history of writes the consensus
    core can make, recovery from the records gives exactly the live state if and
    only if no truncation recorded before the newest checkpoint is misjudged by
    that checkpoint. */
module WalHistory {
  import opened Types
  import opened Messages
  import opened WalReplay

  // ------------------------------------------------------------------ histories

  /** What the WAL and the core together allow next: Terms and votes never go
      back, entries are contiguous, only the uncommitted end is replaced, commit
      and Snapshot positions never go back. */
  predicate CanWrite(d: Durable, w: Write) {
    match w
    case SaveHardState(term, votedFor) => term > d.term || (term == d.term && (d.votedFor == "" || d.votedFor == votedFor))
    case Truncate(from) => d.commit < from <= Last(d)
    case Append(e) => e.index == Last(d) + 1
    case SaveCommit(index) => d.commit <= index <= Last(d)
    case Checkpoint(index, snapTerm, keep) =>
      && 0 < snapTerm && d.base <= index && 0 < index
      && (keep ==> index <= Last(d)) && (!keep ==> d.commit <= index)
  }

  /** Live states the WAL can be in. */
  predicate WellFormed(d: Durable) {
    d.base <= d.commit <= Last(d) && WellIndexed(d.log, d.base)
  }

  function TruncateFromOf(d: Durable, w: Write): nat {
    if w.Checkpoint? && !w.keep && w.index < Last(d) then w.index + 1 else 0
  }

  /** The records one write leaves in the log. */
  function RecordsOf(d: Durable, w: Write): seq<Record> {
    match w
    case SaveHardState(term, votedFor) => [HardRecord(HardState(term, votedFor))]
    case Truncate(from) => [TruncationRecord(from)]
    case Append(e) => [EntryRecord(e)]
    case SaveCommit(index) => if index == d.commit then [] else [CommitRecord(index)]
    case Checkpoint(index, snapTerm, keep) =>
      var from := TruncateFromOf(d, w);
      [CheckpointRecord(HardOf(d), Max(d.commit, index), index, snapTerm, from)]
        + if from == 0 then [] else [TruncationRecord(from)]
  }

  predicate Accepted(d: Durable, ws: seq<Write>)
    decreases |ws|
  {
    ws == [] || (CanWrite(d, ws[0]) && Accepted(ApplyWrite(d, ws[0]), ws[1..]))
  }

  function Records(d: Durable, ws: seq<Write>): seq<Record>
    decreases |ws|
  {
    if ws == [] then [] else RecordsOf(d, ws[0]) + Records(ApplyWrite(d, ws[0]), ws[1..])
  }

  function Live(d: Durable, ws: seq<Write>): Durable
    decreases |ws|
  {
    if ws == [] then d else Live(ApplyWrite(d, ws[0]), ws[1..])
  }

  lemma StepWellFormed(d: Durable, w: Write)
    requires WellFormed(d) && CanWrite(d, w)
    ensures WellFormed(ApplyWrite(d, w))
  {
  }

  lemma OneMoreWrite(d: Durable, ws: seq<Write>, w: Write)
    ensures Live(d, ws + [w]) == ApplyWrite(Live(d, ws), w)
    ensures Records(d, ws + [w]) == Records(d, ws) + RecordsOf(Live(d, ws), w)
  {
    HistoryConcat(d, ws, [w]);
    var x := Live(d, ws);
    assert [w][1..] == [];
    assert Live(x, [w]) == Live(ApplyWrite(x, w), []) && Records(x, [w]) == RecordsOf(x, w) + Records(ApplyWrite(x, w), []);
    assert RecordsOf(x, w) + [] == RecordsOf(x, w);
  }

  // ----------------------------------------------------------- the newest checkpoint

  /** A checkpoint as recovery starts from it. */
  datatype Mark = Mark(hard: HardState, commit: nat, index: nat, snapTerm: nat)

  function StartOf(m: Mark): Durable { Durable(m.hard.term, m.hard.votedFor, m.index, m.snapTerm, [], m.commit) }

  predicate HardBelow(h: HardState, k: HardState) {
    h.term < k.term || (h.term == k.term && (h.votedFor == "" || h.votedFor == k.votedFor))
  }

  /** The live state is no further than the mark. */
  predicate Below(d: Durable, m: Mark) {
    d.base <= m.index <= m.commit && d.commit <= m.commit && HardBelow(HardOf(d), m.hard)
  }

  /** A truncation the mark judges correctly: above its commit index, or at or
      below its Snapshot when nothing above the Snapshot was there to remove. */
  predicate Judged(d: Durable, from: nat, m: Mark) {
    from > m.commit || (from <= m.index && Last(d) <= m.index)
  }

  predicate Fine(d: Durable, w: Write, m: Mark) {
    match w
    case Truncate(from) => Judged(d, from, m)
    case Checkpoint(_, _, _) => TruncateFromOf(d, w) == 0 || Judged(d, TruncateFromOf(d, w), m)
    case _ => true
  }

  predicate AllFine(d: Durable, ws: seq<Write>, m: Mark)
    decreases |ws|
  {
    ws == [] || (Fine(d, ws[0], m) && AllFine(ApplyWrite(d, ws[0]), ws[1..], m))
  }

  /** Where a write cuts the log, as its records say; 0 when it does not. */
  function CutOf(d: Durable, w: Write): nat { if w.Truncate? then w.from else TruncateFromOf(d, w) }

  predicate Refills(ws: seq<Write>, index: nat) { exists w :: w in ws && w.Append? && w.entry.index > index }

  /** The first misjudged truncation starts above the Snapshot, or entries above
      the Snapshot are appended after it. */
  predicate Breaks(d: Durable, ws: seq<Write>, m: Mark)
    decreases |ws|
  {
    ws != [] &&
    if Fine(d, ws[0], m) then Breaks(ApplyWrite(d, ws[0]), ws[1..], m)
    else CutOf(d, ws[0]) > m.index || Refills(ws[1..], m.index)
  }

  /** The retained entries after an index. */
  function Above(d: Durable, index: nat): seq<Entry> {
    if d.base <= index <= Last(d) then d.log[index - d.base..] else []
  }

  /** Recovery holds exactly the live entries after the Snapshot. */
  predicate Good(x: Durable, d: Durable, m: Mark) {
    x == StartOf(m).(log := Above(d, m.index))
  }

  /** Recovery holds entries after the Snapshot though the live log has none. */
  predicate Stale(x: Durable, d: Durable, m: Mark) {
    x == StartOf(m).(log := x.log) && x.log != [] && Last(d) <= m.index
  }

  lemma FoldOne(x: Durable, r: Record)
    ensures ReplayOn(x, [r]) == ApplyRecord(x, r)
  {
    assert [r][1..] == [];
  }

  lemma FoldTwo(x: Durable, r: Record, q: Record)
    ensures ReplayOn(x, [r] + [q]) == var y := ApplyRecord(x, r); if y.Err? then y else ApplyRecord(y.value, q)
  {
    ReplayConcat(x, [r], [q]);
    FoldOne(x, r);
    if ApplyRecord(x, r).Ok? { FoldOne(ApplyRecord(x, r).value, q); }
  }

  lemma {:induction false} BeforeAll(log: seq<Entry>, base: nat, index: nat)
    requires WellIndexed(log, base) && index <= base + 1
    ensures Before(log, index) == []
  {
    if log != [] { assert log[0].index == base + 1; }
  }

  // ------------------------------------------------------ before the checkpoint

  lemma AboveAppend(d: Durable, e: Entry, index: nat)
    requires WellFormed(d) && e.index == Last(d) + 1 && d.base <= index
    ensures var d' := d.(log := d.log + [e]);
            Above(d', index) == if e.index <= index then Above(d, index) else Above(d, index) + [e]
  {
  }

  lemma AboveTruncate(d: Durable, from: nat, index: nat)
    requires WellFormed(d) && d.base <= index && d.base < from <= Last(d)
    ensures var d' := d.(log := d.log[..from - d.base - 1]);
            && (index < from ==> Above(d', index) == Above(d, index)[..from - index - 1])
            && (from <= index && Last(d) <= index ==> Above(d', index) == Above(d, index) == [])
  {
    var d' := d.(log := d.log[..from - d.base - 1]);
    if index < from {
      assert index <= Last(d);
      assert d'.log[index - d.base..] == d.log[index - d.base..][..from - index - 1];
    }
  }

  /** Recovery keeps up through every write that is fine for the mark. */
  lemma GoodWrite(x: Durable, d: Durable, w: Write, m: Mark)
    requires WellFormed(d) && CanWrite(d, w) && !w.Checkpoint? && Fine(d, w, m)
    requires Good(x, d, m) && Below(d, m) && Below(ApplyWrite(d, w), m)
    ensures var y := ReplayOn(x, RecordsOf(d, w)); y.Ok? && Good(y.value, ApplyWrite(d, w), m)
  {
    if RecordsOf(d, w) != [] { FoldOne(x, RecordsOf(d, w)[0]); }
    match w
    case Append(e) => AboveAppend(d, e, m.index);
    case Truncate(from) => AboveTruncate(d, from, m.index);
    case _ =>
  }

  lemma AboveCheckpoint(d: Durable, index: nat, snapTerm: nat, keep: bool, at: nat)
    requires WellFormed(d) && CanWrite(d, Checkpoint(index, snapTerm, keep)) && index <= at
    ensures var d' := ApplyWrite(d, Checkpoint(index, snapTerm, keep));
            Above(d', at) == if keep then Above(d, at) else []
  {
    if keep && at <= Last(d) { assert d.log[index - d.base..][at - index..] == d.log[at - d.base..]; }
  }

  function MarkRecord(d: Durable, w: Write): Record
    requires w.Checkpoint?
  {
    CheckpointRecord(HardOf(d), Max(d.commit, w.index), w.index, w.snapTerm, TruncateFromOf(d, w))
  }

  /** An earlier checkpoint that keeps the log: recovery ignores it. */
  lemma KeptCheckpoint(x: Durable, d: Durable, w: Write, m: Mark)
    requires WellFormed(d) && CanWrite(d, w) && w.Checkpoint? && TruncateFromOf(d, w) == 0
    requires Good(x, d, m) && Below(d, m) && Below(ApplyWrite(d, w), m)
    ensures ApplyRecord(x, MarkRecord(d, w)) == Ok(x) && Good(x, ApplyWrite(d, w), m)
  {
    AboveCheckpoint(d, w.index, w.snapTerm, w.keep, m.index);
  }

  /** One that drops the end of the log, correctly judged: recovery drops it too. */
  lemma CutKept(x: Durable, d: Durable, w: Write, m: Mark)
    requires WellFormed(d) && CanWrite(d, w) && w.Checkpoint? && Fine(d, w, m) && TruncateFromOf(d, w) != 0
    requires Good(x, d, m) && Below(d, m) && Below(ApplyWrite(d, w), m)
    ensures var y := ApplyRecord(x, MarkRecord(d, w));
            var z := if y.Ok? then ApplyRecord(y.value, TruncationRecord(w.index + 1)) else y;
            z.Ok? && Good(z.value, ApplyWrite(d, w), m)
  {
    AboveCheckpoint(d, w.index, w.snapTerm, w.keep, m.index);
    var r, t := MarkRecord(d, w), TruncationRecord(w.index + 1);
    if w.index == m.index {
      AboveIndexed(d, m.index);
      BeforeAll(x.log, m.index, m.index + 1);
      assert ApplyRecord(x, r) == Ok(x.(log := []));
      assert ApplyRecord(x.(log := []), t) == Ok(x.(log := []));
    } else {
      assert ApplyRecord(x, r) == Ok(x) && ApplyRecord(x, t) == Ok(x);
    }
    hide ApplyRecord;
  }

  /** An earlier checkpoint: recovery ignores it, or drops what it dropped. */
  lemma GoodCheckpoint(x: Durable, d: Durable, w: Write, m: Mark)
    requires WellFormed(d) && CanWrite(d, w) && w.Checkpoint? && Fine(d, w, m)
    requires Good(x, d, m) && Below(d, m) && Below(ApplyWrite(d, w), m)
    ensures var y := ReplayOn(x, RecordsOf(d, w)); y.Ok? && Good(y.value, ApplyWrite(d, w), m)
  {
    hide ApplyRecord, ApplyWrite, Good, Below, Fine, CanWrite, WellFormed, MarkRecord, ReplayOn;
    MarkRecords(d, w);
    if TruncateFromOf(d, w) == 0 {
      KeptCheckpoint(x, d, w, m);
      FoldOne(x, MarkRecord(d, w));
    } else {
      CutKept(x, d, w, m);
      FoldTwo(x, MarkRecord(d, w), TruncationRecord(w.index + 1));
    }
  }

  lemma MarkRecords(d: Durable, w: Write)
    requires w.Checkpoint?
    ensures RecordsOf(d, w) == if TruncateFromOf(d, w) == 0 then [MarkRecord(d, w)] else [MarkRecord(d, w)] + [TruncationRecord(w.index + 1)]
  {
  }

  lemma AboveIndexed(d: Durable, index: nat)
    requires WellFormed(d) && d.base <= index
    ensures WellIndexed(Above(d, index), index)
  {
  }

  /** A truncation the mark misjudges stops recovery, if it starts above the
      Snapshot, or else leaves removed entries behind. */
  lemma MisjudgedWrite(x: Durable, d: Durable, w: Write, m: Mark)
    requires WellFormed(d) && CanWrite(d, w) && !Fine(d, w, m)
    requires Good(x, d, m) && Below(d, m) && Below(ApplyWrite(d, w), m)
    ensures var y := ReplayOn(x, RecordsOf(d, w));
            if CutOf(d, w) > m.index then y.Err? else y.Ok? && Stale(y.value, ApplyWrite(d, w), m)
  {
    if w.Truncate? {
      FoldOne(x, TruncationRecord(w.from));
    } else {
      var from := TruncateFromOf(d, w);
      FoldTwo(x, CheckpointRecord(HardOf(d), Max(d.commit, w.index), w.index, w.snapTerm, from), TruncationRecord(from));
    }
  }

  /** Nothing the live log can do before the checkpoint repairs that, and an
      entry above the Snapshot stops recovery. */
  lemma StaleWrite(x: Durable, d: Durable, w: Write, m: Mark)
    requires WellFormed(d) && CanWrite(d, w)
    requires Stale(x, d, m) && Below(d, m) && Below(ApplyWrite(d, w), m)
    ensures var y := ReplayOn(x, RecordsOf(d, w));
            if w.Append? && w.entry.index > m.index then y.Err? else y.Ok? && Stale(y.value, ApplyWrite(d, w), m)
  {
    var rs := RecordsOf(d, w);
    if |rs| == 1 {
      FoldOne(x, rs[0]);
    } else if w.Checkpoint? {
      FoldTwo(x, rs[0], rs[1]);
    }
  }

  // ------------------------------------------------- at and after the checkpoint

  function MarkOf(d: Durable, w: Write): Mark
    requires w.Checkpoint?
  {
    Mark(HardOf(d), Max(d.commit, w.index), w.index, w.snapTerm)
  }

  /** The newest checkpoint turns recovery into the live state, if it was good. */
  lemma AtCheckpoint(x: Durable, d: Durable, w: Write)
    requires WellFormed(d) && CanWrite(d, w) && w.Checkpoint?
    ensures Good(x, d, MarkOf(d, w)) ==> ReplayOn(x, RecordsOf(d, w)) == Ok(ApplyWrite(d, w))
    ensures Stale(x, d, MarkOf(d, w)) ==>
              var y := ReplayOn(x, RecordsOf(d, w)); y.Ok? && Stuck(y.value, ApplyWrite(d, w))
  {
    var m, from := MarkOf(d, w), TruncateFromOf(d, w);
    var cp := CheckpointRecord(HardOf(d), Max(d.commit, w.index), w.index, w.snapTerm, from);
    AboveCheckpoint(d, w.index, w.snapTerm, w.keep, m.index);
    if from == 0 {
      FoldOne(x, cp);
    } else {
      FoldTwo(x, cp, TruncationRecord(from));
      AboveIndexed(d, m.index);
      if Good(x, d, m) { BeforeAll(x.log, m.index, m.index + 1); }
    }
  }

  /** The live log is empty after its Snapshot and recovery holds more. */
  predicate Stuck(x: Durable, d: Durable) {
    x == d.(log := x.log) && x.log != [] && d.log == [] && d.commit == d.base
  }

  lemma StuckWrite(x: Durable, d: Durable, w: Write)
    requires WellFormed(d) && CanWrite(d, w) && !w.Checkpoint? && Stuck(x, d)
    ensures var y := ReplayOn(x, RecordsOf(d, w)); if w.Append? then y.Err? else y.Ok? && Stuck(y.value, ApplyWrite(d, w))
  {
    if RecordsOf(d, w) != [] { FoldOne(x, RecordsOf(d, w)[0]); }
  }

  /** After the newest checkpoint, or with none, recovery does what the live log did. */
  lemma SameWrite(d: Durable, w: Write)
    requires WellFormed(d) && CanWrite(d, w) && !w.Checkpoint?
    ensures ReplayOn(d, RecordsOf(d, w)) == Ok(ApplyWrite(d, w))
  {
    if RecordsOf(d, w) != [] { FoldOne(d, RecordsOf(d, w)[0]); }
  }

  // --------------------------------------------------------------- whole histories

  predicate NoCheckpoint(ws: seq<Write>) { forall w :: w in ws ==> !w.Checkpoint? }

  lemma {:induction false} LiveWellFormed(d: Durable, ws: seq<Write>)
    requires WellFormed(d) && Accepted(d, ws)
    ensures WellFormed(Live(d, ws))
    decreases |ws|
  {
    if ws != [] {
      StepWellFormed(d, ws[0]);
      LiveWellFormed(ApplyWrite(d, ws[0]), ws[1..]);
    }
  }

  lemma {:induction false} HistoryConcat(d: Durable, a: seq<Write>, b: seq<Write>)
    ensures Accepted(d, a + b) <==> Accepted(d, a) && Accepted(Live(d, a), b)
    ensures Live(d, a + b) == Live(Live(d, a), b)
    ensures Records(d, a + b) == Records(d, a) + Records(Live(d, a), b)
    decreases |a|
  {
    if a == [] {
      assert a + b == b;
    } else {
      assert (a + b)[1..] == a[1..] + b;
      HistoryConcat(ApplyWrite(d, a[0]), a[1..], b);
    }
  }

  /** Live positions only move forward. */
  lemma {:induction false} StaysBelow(d: Durable, ws: seq<Write>, m: Mark)
    requires WellFormed(d) && Accepted(d, ws) && Below(Live(d, ws), m)
    ensures Below(d, m)
    decreases |ws|
  {
    if ws != [] {
      StepWellFormed(d, ws[0]);
      StaysBelow(ApplyWrite(d, ws[0]), ws[1..], m);
    }
  }

  lemma {:induction false} GoodRun(x: Durable, d: Durable, ws: seq<Write>, m: Mark)
    requires WellFormed(d) && Accepted(d, ws) && Below(Live(d, ws), m) && Good(x, d, m)
    ensures var y := ReplayOn(x, Records(d, ws));
            if AllFine(d, ws, m) then y.Ok? && Good(y.value, Live(d, ws), m)
            else if Breaks(d, ws, m) then y.Err?
            else y.Ok? && Stale(y.value, Live(d, ws), m)
    decreases |ws|
  {
    hide CanWrite, Below, Good, Stale, Fine, RecordsOf, ApplyWrite;
    if ws != [] {
      var w, d' := ws[0], ApplyWrite(d, ws[0]);
      StepWellFormed(d, w);
      StaysBelow(d, ws, m);
      StaysBelow(d', ws[1..], m);
      ReplayConcat(x, RecordsOf(d, w), Records(d', ws[1..]));
      var y := ReplayOn(x, RecordsOf(d, w));
      if !Fine(d, w, m) {
        MisjudgedWrite(x, d, w, m);
        if y.Ok? { StaleRun(y.value, d', ws[1..], m); }
      } else {
        if w.Checkpoint? { GoodCheckpoint(x, d, w, m); } else { GoodWrite(x, d, w, m); }
        GoodRun(y.value, d', ws[1..], m);
      }
    }
  }

  lemma {:induction false} StaleRun(x: Durable, d: Durable, ws: seq<Write>, m: Mark)
    requires WellFormed(d) && Accepted(d, ws) && Below(Live(d, ws), m) && Stale(x, d, m)
    ensures var y := ReplayOn(x, Records(d, ws)); if Refills(ws, m.index) then y.Err? else y.Ok? && Stale(y.value, Live(d, ws), m)
    decreases |ws|
  {
    if ws != [] {
      var w, d' := ws[0], ApplyWrite(d, ws[0]);
      StepWellFormed(d, w);
      StaysBelow(d, ws, m);
      StaysBelow(d', ws[1..], m);
      hide CanWrite, Below, Stale, RecordsOf, ApplyWrite, Refills;
      ReplayConcat(x, RecordsOf(d, w), Records(d', ws[1..]));
      StaleWrite(x, d, w, m);
      RefillsCons(ws, m.index);
      var y := ReplayOn(x, RecordsOf(d, w));
      if y.Ok? { StaleRun(y.value, d', ws[1..], m); }
    }
  }

  lemma RefillsCons(ws: seq<Write>, index: nat)
    requires ws != []
    ensures Refills(ws, index) <==> (ws[0].Append? && ws[0].entry.index > index) || Refills(ws[1..], index)
  {
    if Refills(ws, index) {
      var w :| w in ws && w.Append? && w.entry.index > index;
      assert w == ws[0] || w in ws[1..];
    }
    if ws[0].Append? && ws[0].entry.index > index { assert ws[0] in ws; }
  }

  lemma {:induction false} SameRun(d: Durable, ws: seq<Write>)
    requires WellFormed(d) && Accepted(d, ws) && NoCheckpoint(ws)
    ensures ReplayOn(d, Records(d, ws)) == Ok(Live(d, ws))
    decreases |ws|
  {
    if ws != [] {
      StepWellFormed(d, ws[0]);
      SameWrite(d, ws[0]);
      ReplayConcat(d, RecordsOf(d, ws[0]), Records(ApplyWrite(d, ws[0]), ws[1..]));
      SameRun(ApplyWrite(d, ws[0]), ws[1..]);
    }
  }

  lemma {:induction false} StuckRun(x: Durable, d: Durable, ws: seq<Write>)
    requires WellFormed(d) && Accepted(d, ws) && NoCheckpoint(ws) && Stuck(x, d)
    ensures var y := ReplayOn(x, Records(d, ws)); if Refills(ws, d.base) then y.Err? else y.Ok? && Stuck(y.value, Live(d, ws))
    decreases |ws|
  {
    if ws != [] {
      StepWellFormed(d, ws[0]);
      StuckWrite(x, d, ws[0]);
      RefillsCons(ws, d.base);
      ReplayConcat(x, RecordsOf(d, ws[0]), Records(ApplyWrite(d, ws[0]), ws[1..]));
      var y := ReplayOn(x, RecordsOf(d, ws[0]));
      if y.Ok? { StuckRun(y.value, ApplyWrite(d, ws[0]), ws[1..]); }
    }
  }

  /** Recovery starts from the newest checkpoint of the history. */
  lemma {:induction false} StartKept(x: Durable, d: Durable, ws: seq<Write>)
    requires NoCheckpoint(ws)
    ensures StartFrom(x, Records(d, ws)) == Ok(x)
    decreases |ws|
  {
    if ws != [] {
      StartConcat(x, RecordsOf(d, ws[0]), Records(ApplyWrite(d, ws[0]), ws[1..]));
      StartOne(x, d, ws[0]);
      StartKept(x, ApplyWrite(d, ws[0]), ws[1..]);
    }
  }

  lemma StartOne(x: Durable, d: Durable, w: Write)
    requires w.Checkpoint? ==> 0 < w.index && 0 < w.snapTerm
    ensures StartFrom(x, RecordsOf(d, w)) == Ok(if w.Checkpoint? then StartOf(MarkOf(d, w)) else x)
  {
    var rs := RecordsOf(d, w);
    if |rs| == 2 {
      assert rs == [rs[0]] + [rs[1]];
      StartConcat(x, [rs[0]], [rs[1]]);
      StartSingle(x, rs[0]);
      StartSingle(StartOf(MarkOf(d, w)), rs[1]);
    } else if |rs| == 1 {
      StartSingle(x, rs[0]);
    }
  }

  lemma StartSingle(x: Durable, r: Record)
    ensures !r.CheckpointRecord? ==> StartFrom(x, [r]) == Ok(x)
    ensures r.CheckpointRecord? && CheckpointValid(r) ==> StartFrom(x, [r]) == Ok(StartOf(Mark(r.hard, r.commit, r.index, r.snapTerm)))
  {
    assert [r][1..] == [];
  }

  lemma {:induction false} StartOk(x: Durable, d: Durable, ws: seq<Write>)
    requires WellFormed(d) && Accepted(d, ws)
    ensures StartFrom(x, Records(d, ws)).Ok?
    decreases |ws|
  {
    if ws != [] {
      StepWellFormed(d, ws[0]);
      StartConcat(x, RecordsOf(d, ws[0]), Records(ApplyWrite(d, ws[0]), ws[1..]));
      StartOne(x, d, ws[0]);
      StartOk(if ws[0].Checkpoint? then StartOf(MarkOf(d, ws[0])) else x, ApplyWrite(d, ws[0]), ws[1..]);
    }
  }

  /** Without a checkpoint recovery is exact. */
  lemma RecoverPlain(ws: seq<Write>)
    requires Accepted(BLANK, ws) && NoCheckpoint(ws)
    ensures Recover(Records(BLANK, ws)) == Ok(Live(BLANK, ws))
  {
    StartKept(BLANK, BLANK, ws);
    SameRun(BLANK, ws);
  }

  /** With a newest checkpoint, recovery is exact if that checkpoint judges every
      earlier truncation correctly. Otherwise it fails, or returns the live state
      with entries after the Snapshot where the live log has none. */
  lemma RecoverIff(a: seq<Write>, w: Write, b: seq<Write>)
    requires Accepted(BLANK, a + [w] + b) && w.Checkpoint? && NoCheckpoint(b)
    ensures var y, d, m := Recover(Records(BLANK, a + [w] + b)), Live(BLANK, a + [w] + b), MarkOf(Live(BLANK, a), w);
            if AllFine(BLANK, a, m) then y == Ok(d)
            else if Breaks(BLANK, a, m) || Refills(b, w.index) then y.Err?
            else y.Ok? && Stuck(y.value, d)
  {
    var d := Live(BLANK, a);
    var m, d' := MarkOf(d, w), ApplyWrite(d, w);
    Split(a, w, b);
    StartIs(a, w, b);
    var ra, rw, rb := Records(BLANK, a), RecordsOf(d, w), Records(d', b);
    var x := StartOf(m);
    assert Above(BLANK, m.index) == [];
    GoodRun(x, BLANK, a, m);
    AtCheckpointThen(x, ra, d, w, b);
  }

  lemma Split(a: seq<Write>, w: Write, b: seq<Write>)
    requires Accepted(BLANK, a + [w] + b) && w.Checkpoint?
    ensures var d := Live(BLANK, a);
            && Accepted(BLANK, a) && WellFormed(d) && CanWrite(d, w)
            && WellFormed(ApplyWrite(d, w)) && Accepted(ApplyWrite(d, w), b)
            && Live(BLANK, a + [w] + b) == Live(ApplyWrite(d, w), b)
            && Records(BLANK, a + [w] + b) == Records(BLANK, a) + (RecordsOf(d, w) + Records(ApplyWrite(d, w), b))
            && Below(d, MarkOf(d, w))
  {
    var d := Live(BLANK, a);
    assert a + [w] + b == a + ([w] + b);
    HistoryConcat(BLANK, a, [w] + b);
    LiveWellFormed(BLANK, a);
    assert ([w] + b)[1..] == b;
    StepWellFormed(d, w);
  }

  lemma StartIs(a: seq<Write>, w: Write, b: seq<Write>)
    requires Accepted(BLANK, a + [w] + b) && w.Checkpoint? && NoCheckpoint(b)
    ensures StartFrom(BLANK, Records(BLANK, a + [w] + b)) == Ok(StartOf(MarkOf(Live(BLANK, a), w)))
  {
    var d := Live(BLANK, a);
    Split(a, w, b);
    var ra, rw, rb := Records(BLANK, a), RecordsOf(d, w), Records(ApplyWrite(d, w), b);
    StartOk(BLANK, BLANK, a);
    StartConcat(BLANK, ra, rw + rb);
    var y := StartFrom(BLANK, ra).value;
    StartConcat(y, rw, rb);
    StartOne(y, d, w);
    StartKept(StartOf(MarkOf(d, w)), ApplyWrite(d, w), b);
  }

  lemma AtCheckpointThen(x: Durable, ra: seq<Record>, d: Durable, w: Write, b: seq<Write>)
    requires WellFormed(d) && CanWrite(d, w) && w.Checkpoint? && WellFormed(ApplyWrite(d, w)) && Accepted(ApplyWrite(d, w), b) && NoCheckpoint(b)
    ensures var y := ReplayOn(x, ra);
            var z := ReplayOn(x, ra + (RecordsOf(d, w) + Records(ApplyWrite(d, w), b)));
            && (y.Err? ==> z.Err?)
            && (y.Ok? && Good(y.value, d, MarkOf(d, w)) ==> z == Ok(Live(ApplyWrite(d, w), b)))
            && (y.Ok? && Stale(y.value, d, MarkOf(d, w)) ==>
                  if Refills(b, w.index) then z.Err? else z.Ok? && Stuck(z.value, Live(ApplyWrite(d, w), b)))
  {
    var d' := ApplyWrite(d, w);
    var rw, rb := RecordsOf(d, w), Records(d', b);
    ReplayConcat(x, ra, rw + rb);
    var y := ReplayOn(x, ra);
    if y.Ok? {
      ReplayConcat(y.value, rw, rb);
      AtCheckpoint(y.value, d, w);
      if Good(y.value, d, MarkOf(d, w)) { SameRun(d', b); }
      if Stale(y.value, d, MarkOf(d, w)) { StuckRun(ReplayOn(y.value, rw).value, d', b); }
    }
  }

  /** The position of the newest checkpoint, or the length when there is none. */
  function NewestCheckpoint(ws: seq<Write>): (i: nat)
    ensures i <= |ws| && (i < |ws| ==> ws[i].Checkpoint?) && NoCheckpoint(if i < |ws| then ws[i + 1..] else ws)
    decreases |ws|
  {
    if ws == [] then 0
    else
      var i := NewestCheckpoint(ws[1..]);
      if i < |ws| - 1 then assert ws[1..][i + 1..] == ws[i + 2..]; i + 1
      else if ws[0].Checkpoint? then 0
      else assert NoCheckpoint(ws) by { NoneAtAll(ws); } |ws|
  }

  lemma NoneAtAll(ws: seq<Write>)
    requires ws != [] && !ws[0].Checkpoint? && NoCheckpoint(ws[1..])
    ensures NoCheckpoint(ws)
  {
  }

  /** The newest checkpoint of the history, if any, judges every earlier
      truncation correctly. */
  predicate Replayable(ws: seq<Write>) {
    var i := NewestCheckpoint(ws);
    i == |ws| || AllFine(BLANK, ws[..i], MarkOf(Live(BLANK, ws[..i]), ws[i]))
  }

  /** The newest checkpoint misjudges a truncation, and the first it misjudges
      starts above its Snapshot or entries above its Snapshot come after. */
  predicate Unreadable(ws: seq<Write>) {
    var i := NewestCheckpoint(ws);
    i < |ws| &&
    var m := MarkOf(Live(BLANK, ws[..i]), ws[i]);
    !AllFine(BLANK, ws[..i], m) && (Breaks(BLANK, ws[..i], m) || Refills(ws[i + 1..], m.index))
  }

  /** Every accepted history is recovered exactly, or makes recovery fail, or is
      recovered as the live state with removed entries back in its empty log; and
      which of the three is decided by what was written. */
  lemma RecoverCases(ws: seq<Write>)
    requires Accepted(BLANK, ws)
    ensures var y, d := Recover(Records(BLANK, ws)), Live(BLANK, ws);
            if Replayable(ws) then y == Ok(d) else if Unreadable(ws) then y.Err? else y.Ok? && Stuck(y.value, d)
  {
    hide Recover, AllFine, Breaks, Refills, Stuck;
    var i := NewestCheckpoint(ws);
    if i == |ws| {
      RecoverPlain(ws);
    } else {
      assert ws == ws[..i] + [ws[i]] + ws[i + 1..];
      RecoverIff(ws[..i], ws[i], ws[i + 1..]);
    }
  }

  /** Every accepted history recovers exactly if and only if it is replayable. */
  lemma RecoverExactIff(ws: seq<Write>)
    requires Accepted(BLANK, ws)
    ensures Recover(Records(BLANK, ws)) == Ok(Live(BLANK, ws)) <==> Replayable(ws)
  {
    hide Recover, Replayable, Unreadable;
    RecoverCases(ws);
  }

  // ----------------------------------------------------- checkpoints that go back

  predicate IsMark(r: Record, index: nat) { r.CheckpointRecord? && r.index == index }

  /** A checkpoint at this Snapshot index is on record. */
  predicate OnRecord(rs: seq<Record>, index: nat) { index > 0 ==> exists r :: r in rs && IsMark(r, index) }

  /** Replay never moves the Snapshot, and stops at a checkpoint newer than it. */
  lemma {:induction false} TooNew(d: Durable, rs: seq<Record>, r: Record)
    requires r in rs && r.CheckpointRecord? && d.base < r.index
    ensures ReplayOn(d, rs).Err?
    decreases |rs|
  {
    var first := ApplyRecord(d, rs[0]);
    if first.Ok? {
      assert first.value.base == d.base;
      TooNew(first.value, rs[1..], r);
    }
  }

  /** Without a checkpoint recovery starts where it is. */
  lemma {:induction false} NoStart(d: Durable, rs: seq<Record>)
    requires forall r :: r in rs ==> !r.CheckpointRecord?
    ensures StartFrom(d, rs) == Ok(d)
    decreases |rs|
  {
    if rs != [] {
      assert rs[0] in rs;
      NoStart(d, rs[1..]);
    }
  }

  /** If the newest checkpoint is below an earlier one that is still on record,
      recovery fails, whatever else was recorded before, between and after. */
  lemma BackwardsFails(earlier: seq<Record>, low: Record, later: seq<Record>, high: Record)
    requires low.CheckpointRecord? && high.CheckpointRecord? && high in earlier && low.index < high.index
    requires forall r :: r in later ==> !r.CheckpointRecord?
    ensures Recover(earlier + [low] + later).Err?
  {
    var rs := earlier + [low] + later;
    var start := StartFrom(BLANK, rs);
    if start.Ok? {
      assert rs == earlier + ([low] + later);
      StartConcat(BLANK, earlier, [low] + later);
      var x := StartFrom(BLANK, earlier).value;
      assert ([low] + later)[1..] == later;
      NoStart(Durable(low.hard.term, low.hard.votedFor, low.index, low.snapTerm, [], low.commit), later);
      assert start.value.base == low.index;
      assert high in rs;
      TooNew(start.value, rs, high);
    }
  }

  /** What recovery starts from is on record, so what it returns is. */
  lemma {:induction false} StartOnRecord(d: Durable, rs: seq<Record>)
    requires StartFrom(d, rs).Ok?
    ensures StartFrom(d, rs).value.base == d.base || OnRecord(rs, StartFrom(d, rs).value.base)
    decreases |rs|
  {
    if rs != [] {
      var c := rs[0];
      var d' := if c.CheckpointRecord? then Durable(c.hard.term, c.hard.votedFor, c.index, c.snapTerm, [], c.commit) else d;
      StartOnRecord(d', rs[1..]);
      var base := StartFrom(d, rs).value.base;
      if c.CheckpointRecord? && base == c.index {
        assert c in rs && IsMark(c, base);
      } else if base != d.base && base > 0 {
        var r :| r in rs[1..] && IsMark(r, base);
        assert r in rs;
      }
    }
  }

  lemma {:induction false} ReplayBase(d: Durable, rs: seq<Record>)
    requires ReplayOn(d, rs).Ok?
    ensures ReplayOn(d, rs).value.base == d.base
    decreases |rs|
  {
    if rs != [] { ReplayBase(ApplyRecord(d, rs[0]).value, rs[1..]); }
  }

  lemma RecoveredOnRecord(rs: seq<Record>)
    requires Recover(rs).Ok?
    ensures OnRecord(rs, Recover(rs).value.base)
  {
    StartOnRecord(BLANK, rs);
    ReplayBase(StartFrom(BLANK, rs).value, rs);
  }

  lemma StaysOnRecord(rs: seq<Record>, more: seq<Record>, index: nat)
    requires OnRecord(rs, index)
    ensures OnRecord(rs + more, index)
  {
    if index > 0 {
      var r :| r in rs && IsMark(r, index);
      assert r in rs + more;
    }
  }

  // ---------------------------------------------------------- a misjudged history

  /** A Follower takes three entries from one Leader, replaces the last two by
      one entry of the next Leader and commits it. */
  function Replaced(): seq<Write> {
    [Append(NoOpAt(1, 1)), Append(NoOpAt(2, 1)), Append(NoOpAt(3, 1)), Truncate(2), Append(NoOpAt(2, 2)), SaveCommit(2)]
  }

  lemma ReplacedLive()
    ensures Accepted(BLANK, Replaced())
    ensures Live(BLANK, Replaced()) == Durable(0, "", 0, 0, [NoOpAt(1, 1), NoOpAt(2, 2)], 2)
    ensures !AllFine(BLANK, Replaced(), Mark(HardState(0, ""), 2, 2, 2))
  {
    var ws := Replaced();
    var d1 := BLANK.(log := [NoOpAt(1, 1)]);
    var d2 := BLANK.(log := [NoOpAt(1, 1), NoOpAt(2, 1)]);
    var d3 := BLANK.(log := [NoOpAt(1, 1), NoOpAt(2, 1), NoOpAt(3, 1)]);
    var d5 := BLANK.(log := [NoOpAt(1, 1), NoOpAt(2, 2)]);
    assert ApplyWrite(BLANK, ws[0]) == d1 && ApplyWrite(d1, ws[1]) == d2 && ApplyWrite(d2, ws[2]) == d3;
    assert ApplyWrite(d3, ws[3]) == d1 by { assert d3.log[..1] == d1.log; }
    assert ApplyWrite(d1, ws[4]) == d5 && ApplyWrite(d5, ws[5]) == d5.(commit := 2);
    Unroll(d5, ws[5..]);
    Unroll(d1, ws[4..]);
    Unroll(d3, ws[3..]);
    Unroll(d2, ws[2..]);
    Unroll(d1, ws[1..]);
    Unroll(BLANK, ws);
    assert !Fine(d3, ws[3], Mark(HardState(0, ""), 2, 2, 2));
  }

  lemma Unroll(d: Durable, ws: seq<Write>)
    requires ws != []
    ensures Accepted(d, ws) <==> CanWrite(d, ws[0]) && Accepted(ApplyWrite(d, ws[0]), ws[1..])
    ensures Live(d, ws) == Live(ApplyWrite(d, ws[0]), ws[1..])
    ensures forall m :: AllFine(d, ws, m) <==> Fine(d, ws[0], m) && AllFine(ApplyWrite(d, ws[0]), ws[1..], m)
  {
  }

  /** Compacting after that loses the refinement: recovery does not give the live
      state, because the entry removed by the truncation comes back. */
  lemma ReplacedEntryReturns()
    ensures var w := Checkpoint(2, 2, true);
            && Accepted(BLANK, Replaced() + [w] + [])
            && Recover(Records(BLANK, Replaced() + [w] + [])) != Ok(Live(BLANK, Replaced() + [w] + []))
  {
    var w := Checkpoint(2, 2, true);
    ReplacedLive();
    HistoryConcat(BLANK, Replaced(), [w]);
    assert Replaced() + [w] + [] == Replaced() + [w];
    assert [w][1..] == [];
    RecoverIff(Replaced(), w, []);
  }
}
