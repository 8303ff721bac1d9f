/** Torn journals: wherever the records of a history are cut, recovery is that of a
    history of whole writes. Only a checkpoint that drops its suffix leaves two
    records, and the first alone already stands for both. */
module WalCuts {
  import opened Types
  import opened Messages
  import opened WalReplay
  import opened WalHistory

  /** Replay keeps the base and a contiguous log. */
  lemma {:induction false} ReplayIndexed(d: Durable, rs: seq<Record>)
    requires WellIndexed(d.log, d.base)
    ensures var y := ReplayOn(d, rs); y.Ok? ==> y.value.base == d.base && WellIndexed(y.value.log, d.base)
    decreases |rs|
  {
    if rs != [] {
      var first := ApplyRecord(d, rs[0]);
      if first.Ok? {
        RecordIndexed(d, rs[0]);
        ReplayIndexed(first.value, rs[1..]);
      }
    }
  }

  lemma RecordIndexed(d: Durable, r: Record)
    requires WellIndexed(d.log, d.base)
    ensures var y := ApplyRecord(d, r); y.Ok? ==> y.value.base == d.base && WellIndexed(y.value.log, d.base)
  {
    if r.CheckpointRecord? { BeforeIsPrefix(d.log, r.truncateFrom); }
  }

  lemma {:induction false} BeforeIsPrefix(log: seq<Entry>, index: nat)
    ensures Before(log, index) <= log
    decreases |log|
  {
    if log != [] && log[0].index < index { BeforeIsPrefix(log[1..], index); }
  }

  /** The truncation record after a checkpoint repeats what the checkpoint did. */
  lemma TruncationRepeats(y: Durable, cp: Record)
    requires cp.CheckpointRecord? && cp.index == y.base == y.commit && cp.truncateFrom == cp.index + 1 && WellIndexed(y.log, y.base)
    ensures ApplyRecord(y, cp).Ok? && ApplyRecord(ApplyRecord(y, cp).value, TruncationRecord(cp.truncateFrom)) == ApplyRecord(y, cp)
  {
    BeforeAll(y.log, y.base, cp.truncateFrom);
    var z := ApplyRecord(y, cp).value;
    assert z.log == [] && z.log[..0] == [];
  }

  /** A cut between the two records of a checkpoint changes nothing. */
  lemma CutCheckpoint(a: seq<Write>, w: Write)
    requires Accepted(BLANK, a + [w]) && w.Checkpoint?
    ensures RecordsOf(Live(BLANK, a), w) != []
    ensures Recover(Records(BLANK, a) + RecordsOf(Live(BLANK, a), w)[..1]) == Recover(Records(BLANK, a + [w]))
  {
    var d := Live(BLANK, a);
    OneMoreWrite(BLANK, a, w);
    var rs, ra := RecordsOf(d, w), Records(BLANK, a);
    if TruncateFromOf(d, w) == 0 {
      assert rs[..1] == rs;
    } else {
      CutTruncation(a, w, ra, rs[0], rs[1]);
      assert rs[..1] == [rs[0]] && rs == [rs[0], rs[1]];
    }
  }

  lemma CutTruncation(a: seq<Write>, w: Write, ra: seq<Record>, cp: Record, tr: Record)
    requires Accepted(BLANK, a + [w]) && w.Checkpoint? && TruncateFromOf(Live(BLANK, a), w) != 0
    requires ra == Records(BLANK, a) && |RecordsOf(Live(BLANK, a), w)| == 2 && cp == RecordsOf(Live(BLANK, a), w)[0] && tr == RecordsOf(Live(BLANK, a), w)[1]
    ensures Recover(ra + [cp]) == Recover(ra + [cp, tr])
  {
    hide ApplyRecord, Accepted, Below, AllFine;
    var d := Live(BLANK, a);
    assert a + [w] + [] == a + [w];
    Split(a, w, []);
    var m := MarkOf(d, w);
    var x := StartOf(m);
    StartOk(BLANK, BLANK, a);
    var s := StartFrom(BLANK, ra).value;
    StartConcat(BLANK, ra, [cp]);
    StartSingle(s, cp);
    assert ra + [cp, tr] == ra + [cp] + [tr];
    StartConcat(BLANK, ra + [cp], [tr]);
    StartSingle(x, tr);
    assert Above(BLANK, m.index) == [];
    GoodRun(x, BLANK, a, m);
    ReplayIndexed(x, ra);
    ReplayConcat(x, ra, [cp]);
    ReplayConcat(x, ra + [cp], [tr]);
    var y := ReplayOn(x, ra);
    assert y.Ok? ==> y.value == x.(log := y.value.log);
    assert cp.commit == cp.index == x.base == x.commit && tr == TruncationRecord(cp.truncateFrom);
    if y.Ok? {
      FoldOne(y.value, cp);
      TruncationRepeats(y.value, cp);
      FoldOne(ApplyRecord(y.value, cp).value, tr);
    }
  }

  /** Wherever the records of an accepted history are cut, what is left recovers
      like the records of some prefix of its writes. */
  lemma {:induction false} AnyCutRecovers(ws: seq<Write>, k: nat) returns (j: nat)
    requires Accepted(BLANK, ws) && k <= |Records(BLANK, ws)|
    ensures j <= |ws| && Recover(Records(BLANK, ws)[..k]) == Recover(Records(BLANK, ws[..j]))
    decreases |ws|
  {
    hide Recover, Accepted;
    var rs := Records(BLANK, ws);
    if k == |rs| {
      j := |ws|;
      assert rs[..k] == rs && ws[..j] == ws;
    } else {
      var n := |ws| - 1;
      var init, w := ws[..n], ws[n];
      assert ws == init + [w];
      HistoryConcat(BLANK, init, [w]);
      OneMoreWrite(BLANK, init, w);
      var ri := Records(BLANK, init);
      if k <= |ri| {
        j := AnyCutRecovers(init, k);
        assert rs[..k] == ri[..k] && ws[..j] == init[..j];
      } else {
        j := n + 1;
        CutCheckpoint(init, w);
        assert rs[..k] == ri + RecordsOf(Live(BLANK, init), w)[..1] && ws[..j] == ws;
      }
    }
  }
}
