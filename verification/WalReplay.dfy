/** The write-ahead log as a sequence of records, and what recovery makes of it,
    as in internal/wal/wal.go. Identity records, which must all carry the Node's
    own identity, are not part of this model. */
module WalReplay {
  import opened Types
  import opened Messages

  datatype HardState = HardState(term: nat, votedFor: NodeId)

  datatype Record =
    | HardRecord(hard: HardState)
    | EntryRecord(entry: Entry)
    | TruncationRecord(first: nat)
    | CommitRecord(index: nat)
    | CheckpointRecord(hard: HardState, commit: nat, index: nat, snapTerm: nat, truncateFrom: nat)

  datatype Problem =
    | EntryGap | TruncationFromZero | TruncationOutside | TruncationOfCommitted
    | CommitBeyondLog | CheckpointTooNew | CheckpointInvalid

  datatype Outcome<T> = Ok(value: T) | Err(problem: Problem)

  function HardOf(d: Durable): HardState { HardState(d.term, d.votedFor) }

  function Last(d: Durable): nat { d.base + |d.log| }

  const BLANK := Durable(0, "", 0, 0, [], 0)

  /** One record on the state recovered so far (applyRecord). */
  function ApplyRecord(d: Durable, r: Record): Outcome<Durable> {
    match r
    case HardRecord(h) =>
      if h.term < d.term || (h.term == d.term && d.votedFor != "") then Ok(d)
      else Ok(d.(term := h.term, votedFor := h.votedFor))
    case EntryRecord(e) =>
      if e.index <= d.base then Ok(d)
      else if e.index != Last(d) + 1 then Err(EntryGap)
      else Ok(d.(log := d.log + [e]))
    case TruncationRecord(first) =>
      if first == 0 then Err(TruncationFromZero)
      else if first <= d.base then Ok(d)
      else if first > Last(d) + 1 then Err(TruncationOutside)
      else if first <= d.commit then Err(TruncationOfCommitted)
      else Ok(d.(log := d.log[..first - d.base - 1]))
    case CommitRecord(index) =>
      if index < d.commit then Ok(d)
      else if index > Last(d) then Err(CommitBeyondLog)
      else Ok(d.(commit := index))
    case CheckpointRecord(_, _, index, _, truncateFrom) =>
      if index > d.base then Err(CheckpointTooNew)
      else if truncateFrom != 0 && truncateFrom != index + 1 then Err(CheckpointInvalid)
      else if truncateFrom != 0 && index == d.base then Ok(d.(log := Before(d.log, truncateFrom)))
      else Ok(d)
  }

  /** The leading entries whose index is below `index` (the sort.Search of applyRecord). */
  function Before(log: seq<Entry>, index: nat): seq<Entry> {
    if log == [] || log[0].index >= index then [] else [log[0]] + Before(log[1..], index)
  }

  function ReplayOn(d: Durable, records: seq<Record>): Outcome<Durable>
    decreases |records|
  {
    if records == [] then Ok(d)
    else
      var first := ApplyRecord(d, records[0]);
      if first.Err? then first else ReplayOn(first.value, records[1..])
  }

  predicate CheckpointValid(r: Record)
    requires r.CheckpointRecord?
  {
    0 < r.index <= r.commit && 0 < r.snapTerm && (r.truncateFrom == 0 || r.truncateFrom == r.index + 1)
  }

  /** Where recovery starts: the newest checkpoint, if there is one
      (newestCompactionCheckpoint). Every checkpoint on the way must be valid. */
  function StartFrom(d: Durable, records: seq<Record>): Outcome<Durable>
    decreases |records|
  {
    if records == [] then Ok(d)
    else if !records[0].CheckpointRecord? then StartFrom(d, records[1..])
    else
      var c := records[0];
      if !CheckpointValid(c) then Err(CheckpointInvalid)
      else StartFrom(Durable(c.hard.term, c.hard.votedFor, c.index, c.snapTerm, [], c.commit), records[1..])
  }

  /** The state recovered from a whole log (recoverSegments). */
  function Recover(records: seq<Record>): Outcome<Durable> {
    var start := StartFrom(BLANK, records);
    if start.Err? then start else ReplayOn(start.value, records)
  }

  lemma {:induction false} ReplayConcat(d: Durable, a: seq<Record>, b: seq<Record>)
    ensures var first := ReplayOn(d, a);
            ReplayOn(d, a + b) == if first.Err? then first else ReplayOn(first.value, b)
    decreases |a|
  {
    if a == [] {
      assert a + b == b;
    } else {
      assert (a + b)[1..] == a[1..] + b;
      var first := ApplyRecord(d, a[0]);
      if first.Ok? { ReplayConcat(first.value, a[1..], b); }
    }
  }

  lemma {:induction false} StartConcat(d: Durable, a: seq<Record>, b: seq<Record>)
    ensures var first := StartFrom(d, a);
            StartFrom(d, a + b) == if first.Err? then first else StartFrom(first.value, b)
    decreases |a|
  {
    if a == [] {
      assert a + b == b;
    } else {
      assert (a + b)[1..] == a[1..] + b;
      if a[0].CheckpointRecord? {
        var c := a[0];
        StartConcat(Durable(c.hard.term, c.hard.votedFor, c.index, c.snapTerm, [], c.commit), a[1..], b);
      } else {
        StartConcat(d, a[1..], b);
      }
    }
  }
}
