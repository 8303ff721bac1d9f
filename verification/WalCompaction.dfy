/** Crash-tolerant compaction: once a checkpoint is durable, any subset of the
    older segments it covers may be gone without changing what recovery returns,
    be that a state or a failure. */
module WalCompaction {
  import opened Messages
  import opened WalReplay
  import opened WalHistory

  /** The test of segmentCoveredBySnapshot on one record. */
  predicate CoveredRecord(r: Record, index: nat) {
    match r
    case EntryRecord(e) => e.index <= index
    case TruncationRecord(first) => first <= index
    case _ => true
  }

  predicate Covered(records: seq<Record>, index: nat) {
    forall r :: r in records ==> CoveredRecord(r, index)
  }

  /** The writes of consecutive segments, in order. A checkpoint and the
      truncation it implies are written to one segment. */
  function Writes(segments: seq<seq<Write>>): seq<Write> {
    if segments == [] then [] else segments[0] + Writes(segments[1..])
  }

  /** The records of the segments that still exist. */
  function Remaining(d: Durable, segments: seq<seq<Write>>, exists': seq<bool>): seq<Record>
    requires |exists'| == |segments|
    decreases |segments|
  {
    if segments == [] then []
    else (if exists'[0] then Records(d, segments[0]) else []) + Remaining(Live(d, segments[0]), segments[1..], exists'[1..])
  }

  /** Only covered segments are missing. */
  predicate OnlyCoveredMissing(d: Durable, segments: seq<seq<Write>>, exists': seq<bool>, index: nat)
    requires |exists'| == |segments|
    decreases |segments|
  {
    segments == [] ||
    ((exists'[0] || Covered(Records(d, segments[0]), index)) && OnlyCoveredMissing(Live(d, segments[0]), segments[1..], exists'[1..], index))
  }

  predicate Tracking(x: Durable, d: Durable, m: Mark) { Good(x, d, m) || Stale(x, d, m) }

  /** A covered write changes nothing recovery has. */
  lemma CoveredWrite(x: Durable, d: Durable, w: Write, m: Mark)
    requires WellFormed(d) && CanWrite(d, w) && Tracking(x, d, m) && Below(d, m) && Below(ApplyWrite(d, w), m)
    requires Covered(RecordsOf(d, w), m.index)
    ensures ReplayOn(x, RecordsOf(d, w)) == Ok(x)
  {
    var rs := RecordsOf(d, w);
    assert forall i :: 0 <= i < |rs| ==> CoveredRecord(rs[i], m.index);
    if |rs| == 1 {
      FoldOne(x, rs[0]);
    } else if w.Checkpoint? {
      FoldTwo(x, rs[0], rs[1]);
    }
  }

  lemma TrackingWrite(x: Durable, d: Durable, w: Write, m: Mark)
    requires WellFormed(d) && CanWrite(d, w) && Tracking(x, d, m) && Below(d, m) && Below(ApplyWrite(d, w), m)
    ensures var y := ReplayOn(x, RecordsOf(d, w)); y.Ok? ==> Tracking(y.value, ApplyWrite(d, w), m)
  {
    hide Good, Stale, Below, CanWrite, ReplayOn, RecordsOf, Fine;
    if Stale(x, d, m) {
      StaleWrite(x, d, w, m);
    } else if !Fine(d, w, m) {
      MisjudgedWrite(x, d, w, m);
    } else if w.Checkpoint? {
      GoodCheckpoint(x, d, w, m);
    } else {
      GoodWrite(x, d, w, m);
    }
  }

  lemma {:induction false} CoveredSegment(x: Durable, d: Durable, ws: seq<Write>, m: Mark)
    requires WellFormed(d) && Accepted(d, ws) && Tracking(x, d, m) && Below(Live(d, ws), m)
    requires Covered(Records(d, ws), m.index)
    ensures ReplayOn(x, Records(d, ws)) == Ok(x)
    decreases |ws|
  {
    if ws != [] {
      var w, d' := ws[0], ApplyWrite(d, ws[0]);
      StepWellFormed(d, w);
      StaysBelow(d, ws, m);
      StaysBelow(d', ws[1..], m);
      assert Covered(RecordsOf(d, w), m.index) && Covered(Records(d', ws[1..]), m.index);
      CoveredWrite(x, d, w, m);
      TrackingWrite(x, d, w, m);
      ReplayConcat(x, RecordsOf(d, w), Records(d', ws[1..]));
      CoveredSegment(x, d', ws[1..], m);
    }
  }

  lemma {:induction false} TrackingSegment(x: Durable, d: Durable, ws: seq<Write>, m: Mark)
    requires WellFormed(d) && Accepted(d, ws) && Tracking(x, d, m) && Below(Live(d, ws), m)
    ensures var y := ReplayOn(x, Records(d, ws)); y.Ok? ==> Tracking(y.value, Live(d, ws), m)
  {
    if Stale(x, d, m) { StaleRun(x, d, ws, m); } else { GoodRun(x, d, ws, m); }
  }

  /** Missing covered segments do not change the replay up to the checkpoint. */
  lemma {:induction false} RemainingReplays(x: Durable, d: Durable, segments: seq<seq<Write>>, exists': seq<bool>, m: Mark)
    requires |exists'| == |segments| && WellFormed(d) && Accepted(d, Writes(segments)) && Tracking(x, d, m)
    requires Below(Live(d, Writes(segments)), m) && OnlyCoveredMissing(d, segments, exists', m.index)
    ensures ReplayOn(x, Remaining(d, segments, exists')) == ReplayOn(x, Records(d, Writes(segments)))
    decreases |segments|
  {
    hide Tracking, Below, Covered, ReplayOn;
    if segments != [] {
      var ws, rest := segments[0], segments[1..];
      var d' := Live(d, ws);
      HistoryConcat(d, ws, Writes(rest));
      LiveWellFormed(d, ws);
      StaysBelow(d', Writes(rest), m);
      TrackingSegment(x, d, ws, m);
      var y := ReplayOn(x, Records(d, ws));
      ReplayConcat(x, Records(d, ws), Records(d', Writes(rest)));
      if exists'[0] {
        ReplayConcat(x, Records(d, ws), Remaining(d', rest, exists'[1..]));
        if y.Ok? { RemainingReplays(y.value, d', rest, exists'[1..], m); }
      } else {
        CoveredSegment(x, d, ws, m);
        RemainingReplays(x, d', rest, exists'[1..], m);
        assert [] + Remaining(d', rest, exists'[1..]) == Remaining(d', rest, exists'[1..]);
      }
    }
  }

  lemma {:induction false} RemainingStarts(x: Durable, d: Durable, segments: seq<seq<Write>>, exists': seq<bool>)
    requires |exists'| == |segments| && WellFormed(d) && Accepted(d, Writes(segments))
    ensures StartFrom(x, Remaining(d, segments, exists')).Ok?
    decreases |segments|
  {
    if segments != [] {
      var ws, rest := segments[0], segments[1..];
      HistoryConcat(d, ws, Writes(rest));
      LiveWellFormed(d, ws);
      StartOk(x, d, ws);
      var first := if exists'[0] then Records(d, ws) else [];
      StartConcat(x, first, Remaining(Live(d, ws), rest, exists'[1..]));
      RemainingStarts(StartFrom(x, first).value, Live(d, ws), rest, exists'[1..]);
    }
  }

  /** Deleting any subset of the covered segments leaves the outcome of recovery
      as it was, whatever was written after the checkpoint. */
  lemma DeletionInvisible(segments: seq<seq<Write>>, exists': seq<bool>, w: Write, b: seq<Write>)
    requires |exists'| == |segments| && w.Checkpoint? && NoCheckpoint(b)
    requires Accepted(BLANK, Writes(segments) + [w] + b)
    requires OnlyCoveredMissing(BLANK, segments, exists', w.index)
    ensures var a := Writes(segments);
            var d := Live(BLANK, a);
            var rest := RecordsOf(d, w) + Records(ApplyWrite(d, w), b);
            Recover(Remaining(BLANK, segments, exists') + rest) == Recover(Records(BLANK, a + [w] + b))
  {
    var a := Writes(segments);
    var d := Live(BLANK, a);
    var m := MarkOf(d, w);
    var rw, rb := RecordsOf(d, w), Records(ApplyWrite(d, w), b);
    var kept := Remaining(BLANK, segments, exists');
    Split(a, w, b);
    StartIs(a, w, b);
    RemainingStarts(BLANK, BLANK, segments, exists');
    StartAtMark(kept, d, w, b);
    assert Above(BLANK, m.index) == [] && Good(StartOf(m), BLANK, m);
    RemainingReplays(StartOf(m), BLANK, segments, exists', m);
    ReplayConcat(StartOf(m), kept, rw + rb);
    ReplayConcat(StartOf(m), Records(BLANK, a), rw + rb);
  }

  lemma StartAtMark(kept: seq<Record>, d: Durable, w: Write, b: seq<Write>)
    requires w.Checkpoint? && CanWrite(d, w) && NoCheckpoint(b) && StartFrom(BLANK, kept).Ok?
    ensures StartFrom(BLANK, kept + (RecordsOf(d, w) + Records(ApplyWrite(d, w), b))) == Ok(StartOf(MarkOf(d, w)))
  {
    var rw, rb := RecordsOf(d, w), Records(ApplyWrite(d, w), b);
    StartConcat(BLANK, kept, rw + rb);
    var y := StartFrom(BLANK, kept).value;
    StartConcat(y, rw, rb);
    StartOne(y, d, w);
    StartKept(StartOf(MarkOf(d, w)), ApplyWrite(d, w), b);
  }
}
