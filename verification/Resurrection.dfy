/** Why the safety theorems exclude restarts from a misjudged journal. A run of
    three Nodes, every delivery of it within the other exclusion: a Follower
    replaces an entry, commits, compacts and restarts, and the replaced entry is
    back in its log. It acknowledges that entry, its Leader commits another one on
    the strength of it, and in the end two Nodes apply different entries at the
    same index. */
module Resurrection {
  import opened Types
  import opened Messages
  import opened Node
  import opened Cluster
  import opened WalReplay
  import opened WalHistory
  import opened Stage

  const RULES := Rules(true, false)

  // -------------------------------------------------------------- entries and letters

  function Old(): Entry { Entry(2, 1, DeleteKey, NO_SESSION, 1, [], []) }
  function New(): Entry { Entry(2, 2, DeleteKey, NO_SESSION, 1, [], []) }

  function Probe(): Message { AppendRequest(2, 1, 1, 2, [], 0, 0) }
  function Conflict(): Message { AppendReply(2, 1, false, 2, 1, 1, 0) }
  function Fill(): Message { AppendRequest(2, 3, 0, 0, [NoOpAt(1, 2)], 0, 0) }
  function Stored(): Message { AppendReply(2, 3, true, 1, 0, 0, 0) }
  function Commit(): Message { AppendRequest(2, 4, 1, 2, [], 1, 0) }
  function WrongAck(): Message { AppendReply(2, 4, true, 2, 0, 0, 0) }
  function LastProbe(): Message { AppendRequest(3, 2, 3, 3, [], 1, 0) }
  function Behind(): Message { AppendReply(3, 2, false, 0, 0, 1, 0) }
  function Offer(): Message { SnapshotRequest(3, 3, 1, 2, 0) }
  function Installed(): Message { SnapshotReply(3, 3, 1, true, 0, true) }
  function Rest(): Message { AppendRequest(3, 4, 1, 2, [Old(), NoOpAt(3, 3)], 1, 0) }
  function LastAck(): Message { AppendReply(3, 4, true, 3, 0, 0, 0) }

  // ----------------------------------------------------------------------------- nodes

  function A0(): Node { NewNode("a", "b", "c") }
  function A1(): Node { A0().(term := 1, votedFor := "b") }
  function A2(): Node { A1().(role := PreCandidate, preVotes := {"a"}) }
  function A3(): Node { A2().(role := Candidate, preVotes := {"a", "c"}, term := 2, votedFor := "a", votes := {"a"}) }
  function A4(): Node {
    A3().(role := Leader, leaderId := "a", votes := {"a", "c"}, log := [NoOpAt(1, 2)], nextIndex := map["b" := 2, "c" := 2],
          inFlight := map["b" := InFlight(1, 0), "c" := InFlight(2, 0)], nextRequest := 2)
  }
  function A5(): Node {
    A4().(activePeers := {"b"}, nextIndex := map["b" := 1, "c" := 2], inFlight := map["b" := InFlight(3, 0), "c" := InFlight(2, 0)], nextRequest := 3)
  }
  function A6(): Node {
    A5().(matchIndex := map["b" := 1], nextIndex := map["b" := 2, "c" := 2], inFlight := map["b" := InFlight(4, 1), "c" := InFlight(2, 0)],
          nextRequest := 4, commit := 1, lastApplied := 1, readReady := true)
  }
  function A7(): Node { A6().(log := [NoOpAt(1, 2), New()]) }
  function A8(): Node {
    A7().(matchIndex := map["b" := 2], nextIndex := map["b" := 3, "c" := 2], inFlight := map["b" := InFlight(5, 2), "c" := InFlight(2, 0)],
          nextRequest := 5, commit := 2, lastApplied := 2)
  }

  function B0(): Node { NewNode("b", "a", "c") }
  function B1(): Node { B0().(role := PreCandidate, preVotes := {"b"}) }
  function B2(): Node { B1().(role := Candidate, preVotes := {"a", "b"}, term := 1, votedFor := "b", votes := {"b"}) }
  function B3(): Node {
    B2().(role := Leader, leaderId := "b", votes := {"a", "b"}, log := [NoOpAt(1, 1)], nextIndex := map["a" := 2, "c" := 2],
          inFlight := map["a" := InFlight(1, 0), "c" := InFlight(2, 0)], nextRequest := 2)
  }
  function B4(): Node { B3().(log := [NoOpAt(1, 1), Old()]) }
  function B5(): Node { B0().(term := 2, leaderId := "a", log := [NoOpAt(1, 1), Old()], nextRequest := 2, recentContact := true) }
  function B6(): Node { B5().(log := [NoOpAt(1, 2)]) }
  function B7(): Node { B6().(commit := 1, lastApplied := 1) }
  function B8(): Node { B7().(log := [], base := 1, baseTerm := 2) }
  function B9(): Node { Restart("b", ["a", "c"], Wrong()) }
  function B10(): Node { B9().(leaderId := "a", recentContact := true) }
  function B11(): Node { B9().(role := PreCandidate, preVotes := {"b"}) }
  function B12(): Node { B11().(role := Candidate, preVotes := {"b", "c"}, term := 3, votedFor := "b", votes := {"b"}) }
  function B13(): Node {
    B12().(role := Leader, leaderId := "b", votes := {"b", "c"}, log := [Old(), NoOpAt(3, 3)], nextIndex := map["a" := 4, "c" := 4],
           inFlight := map["a" := InFlight(1, 1), "c" := InFlight(2, 1)], nextRequest := 2)
  }
  function B14(): Node {
    B13().(activePeers := {"c"}, nextIndex := map["a" := 4, "c" := 1], inFlight := map["a" := InFlight(1, 1)], snapInFlight := map["c" := 3], nextRequest := 3)
  }
  function B15(): Node {
    B14().(matchIndex := map["c" := 1], nextIndex := map["a" := 4, "c" := 2], inFlight := map["a" := InFlight(1, 1), "c" := InFlight(4, 1)],
           snapInFlight := map[], nextRequest := 4)
  }

  function C0(): Node { NewNode("c", "a", "b") }
  function C1(): Node { C0().(term := 2, votedFor := "a") }
  function C2(): Node { C0().(term := 3, votedFor := "b") }
  function C3(): Node { C2().(leaderId := "b", recentContact := true) }
  function C4(): Node { C3().(base := 1, baseTerm := 2, commit := 1, lastApplied := 1) }
  function C5(): Node { C4().(log := [Old(), NoOpAt(3, 3)]) }

  // ----------------------------------------------------------------------- the journal

  function Early(): seq<Record> { [HardRecord(HardState(1, "b")), EntryRecord(NoOpAt(1, 1)), EntryRecord(Old())] }
  function Middle(): seq<Record> { Early() + [HardRecord(HardState(2, "")), TruncationRecord(1), EntryRecord(NoOpAt(1, 2))] }
  function Whole(): seq<Record> { Middle() + [CommitRecord(1), CheckpointRecord(HardState(2, ""), 1, 1, 2, 0)] }

  /** What replaying it gives. */
  function Wrong(): Durable { Durable(2, "", 1, 2, [Old()], 1) }

  lemma RecordOf(d: Durable, w: Write)
    ensures Records(d, [w]) == RecordsOf(d, w)
  {
    assert [w][1..] == [];
    assert Records(ApplyWrite(d, w), []) == [];
    assert RecordsOf(d, w) + [] == RecordsOf(d, w);
  }

  lemma TwoRecordsOf(d: Durable, w: Write, v: Write)
    ensures Records(d, [w, v]) == RecordsOf(d, w) + RecordsOf(ApplyWrite(d, w), v)
  {
    assert [w, v][1..] == [v];
    RecordOf(ApplyWrite(d, w), v);
  }

  lemma Tapes(run: seq<Cluster>, run': seq<Cluster>, d: Durable, ws: seq<Write>)
    requires Taped(run, run', "b", d, ws)
    ensures run != [] && run' != [] && Tape(run', "b") == Tape(run, "b") + Records(d, ws)
    ensures Records(d, []) == [] && Tape(run, "b") + [] == Tape(run, "b")
  {
  }

  lemma StartsAt(a: seq<Record>, r: Record, b: seq<Record>)
    requires r.CheckpointRecord? && CheckpointValid(r) && (forall x :: x in a + b ==> !x.CheckpointRecord?)
    ensures StartFrom(BLANK, a + [r] + b) == Ok(StartOf(Mark(r.hard, r.commit, r.index, r.snapTerm)))
  {
    StartConcat(BLANK, a + [r], b);
    StartConcat(BLANK, a, [r]);
    NoStart(BLANK, a);
    StartSingle(BLANK, r);
    NoStart(StartOf(Mark(r.hard, r.commit, r.index, r.snapTerm)), b);
  }

  lemma Replays()
    ensures Recover(Whole()) == Ok(Wrong())
  {
    var rs, x, y := Whole(), Durable(2, "", 1, 2, [], 1), Wrong();
    var a := Middle() + [CommitRecord(1)];
    assert rs == a + [rs[7]] + [];
    StartsAt(a, rs[7], []);
    assert StartFrom(BLANK, rs) == Ok(x);
    assert rs == rs[..3] + rs[3..6] + rs[6..];
    ReplayConcat(x, rs[..3] + rs[3..6], rs[6..]);
    ReplayConcat(x, rs[..3], rs[3..6]);
    Ending(y);
    Second(y);
    First(x);
  }

  /** Entry 2 of Term 1 follows the Snapshot at index 1, so it is taken up. */
  lemma First(x: Durable)
    requires x == Durable(2, "", 1, 2, [], 1)
    ensures ReplayOn(x, Whole()[..3]) == Ok(Wrong())
  {
    var rs := Whole()[..3];
    assert rs == [HardRecord(HardState(1, "b")), EntryRecord(NoOpAt(1, 1)), EntryRecord(Old())];
    assert ApplyRecord(x, rs[0]) == Ok(x) && ApplyRecord(x, rs[1]) == Ok(x);
    assert x.log + [Old()] == [Old()];
    assert ApplyRecord(x, rs[2]) == Ok(Wrong());
    Three(x, x, x, Wrong(), rs);
  }

  /** The truncation at index 1 is at the Snapshot, so it is passed over. */
  lemma Second(y: Durable)
    requires y == Wrong()
    ensures ReplayOn(y, Whole()[3..6]) == Ok(y)
  {
    var rs := Whole()[3..6];
    assert rs == [HardRecord(HardState(2, "")), TruncationRecord(1), EntryRecord(NoOpAt(1, 2))];
    Three(y, y, y, y, rs);
  }

  lemma Ending(y: Durable)
    requires y == Wrong()
    ensures ReplayOn(y, Whole()[6..]) == Ok(y)
  {
    var rs := Whole()[6..];
    assert rs == [CommitRecord(1), CheckpointRecord(HardState(2, ""), 1, 1, 2, 0)];
    assert rs[1..][1..] == [] && ReplayOn(y, []) == Ok(y);
    assert ReplayOn(y, rs[1..]) == Ok(y);
  }

  lemma Three(d0: Durable, d1: Durable, d2: Durable, d3: Durable, rs: seq<Record>)
    requires |rs| == 3 && ApplyRecord(d0, rs[0]) == Ok(d1) && ApplyRecord(d1, rs[1]) == Ok(d2) && ApplyRecord(d2, rs[2]) == Ok(d3)
    ensures ReplayOn(d0, rs) == Ok(d3)
  {
    assert rs[1..][1..][1..] == [] && ReplayOn(d3, []) == Ok(d3);
    assert ReplayOn(d2, rs[1..][1..]) == Ok(d3);
    assert ReplayOn(d1, rs[1..]) == Ok(d3);
  }

  // ------------------------------------------------------------------- single handlers

  lemma StandB()
    ensures var r := OnElectionTimeout(B0()); r.node == B1() && r.writes == [] && Send("a", PreVoteRequest(1, 0, 0)) in r.actions
  {
  }

  lemma VoteA()
    ensures var r := OnPreVoteRequest(A0(), "b", PreVoteRequest(1, 0, 0)); r.node == A0() && Send("b", PreVoteReply(1, 0, true)) in r.actions
    ensures var r := OnVoteRequest(A0(), "b", VoteRequest(1, 0, 0)); r.node == A1() && Send("b", VoteReply(1, true)) in r.actions
  {
  }

  lemma CampaignB()
    ensures var r := OnPreVoteReply(B1(), "a", PreVoteReply(1, 0, true));
            r.node == B2() && r.writes == [SaveHardState(1, "b")] && Send("a", VoteRequest(1, 0, 0)) in r.actions
  {
  }

  lemma LeadB()
    ensures var r := OnVoteReply(B2(), "a", VoteReply(1, true)); r.node == B3() && r.writes == [Append(NoOpAt(1, 1))]
  {
    hide OnVoteReply;
    Leads(B2(), "a", "c", "a");
    assert [] + [NoOpAt(1, 1)] == [NoOpAt(1, 1)];
  }

  lemma ProposeB()
    ensures var r := OnPropose(B3(), ProposeDelete(1, NO_SESSION, 1, [])); r.node == B4() && r.writes == [Append(Old())]
  {
    hide Propose;
    Extends(B3(), "a", "c", 1, Old());
    assert [NoOpAt(1, 1)] + [Old()] == [NoOpAt(1, 1), Old()];
  }

  lemma StandA()
    ensures var r := OnElectionTimeout(A1()); r.node == A2() && Send("c", PreVoteRequest(2, 0, 0)) in r.actions
  {
  }

  lemma VoteC()
    ensures var r := OnPreVoteRequest(C0(), "a", PreVoteRequest(2, 0, 0)); r.node == C0() && Send("a", PreVoteReply(2, 0, true)) in r.actions
    ensures var r := OnVoteRequest(C0(), "a", VoteRequest(2, 0, 0)); r.node == C1() && Send("a", VoteReply(2, true)) in r.actions
  {
  }

  lemma CampaignA()
    ensures var r := OnPreVoteReply(A2(), "c", PreVoteReply(2, 0, true)); r.node == A3() && Send("c", VoteRequest(2, 0, 0)) in r.actions
  {
  }

  lemma LeadA()
    ensures var r := OnVoteReply(A3(), "c", VoteReply(2, true)); r.node == A4() && Send("b", Probe()) in r.actions
  {
    hide OnVoteReply;
    Leads(A3(), "b", "c", "c");
    assert [] + [NoOpAt(1, 2)] == [NoOpAt(1, 2)];
  }

  lemma ProbeB()
    ensures var r := OnAppendRequest(B4(), "a", Probe()); r.node == B5() && r.writes == [SaveHardState(2, "")] && Send("a", Conflict()) in r.actions
  {
  }

  lemma RetryA()
    ensures var r := OnAppendReply(A4(), "b", Conflict()); r.node == A5() && Send("b", Fill()) in r.actions
  {
    hide LeaderCommit, OnAppendReply;
    NothingCommitted(A4(), "b", 1);
    assert LastOfTerm(A4(), 1, 1) == 0;
    assert A4().log[0..] == A4().log && A4().log[1..] == [];
    assert BatchLength(A4().log, 0, 0) == 1;
    assert EntriesBatch(A4(), 1) == [NoOpAt(1, 2)];
    Retries(A4(), "b", "c", "b", Conflict(), 1);
    assert (A4().inFlight - {"b"})["b" := InFlight(3, 0)] == A5().inFlight;
  }

  lemma FillB()
    ensures var r := OnAppendRequest(B5(), "a", Fill());
            r.node == B6() && r.writes == [Truncate(1), Append(NoOpAt(1, 2))] && Send("a", Stored()) in r.actions
  {
    hide StoreEntries, StoreWrites, ApplyThrough, PlanAppend;
    FillPlan();
    NothingToApply(B6());
  }

  lemma FillPlan()
    ensures PlanAppend(B5(), 1, [NoOpAt(1, 2)]) == Store(1, [NoOpAt(1, 2)])
    ensures StoreEntries(B5(), 1, [NoOpAt(1, 2)]) == B6()
    ensures [] + StoreWrites(1, [NoOpAt(1, 2)]) + [] == [Truncate(1), Append(NoOpAt(1, 2))]
  {
  }

  lemma CommitA()
    ensures var r := OnAppendReply(A5(), "b", Stored()); r.node == A6() && Send("b", Commit()) in r.actions
  {
    hide OnAppendReply, A5, A6, Plain, Waiting, AcksAll, Noted, ProbeOf, TermAt;
    ReadyA();
    Commits(A5(), "b", "c", "b", Stored(), 1);
    CommittedA();
  }

  lemma ReadyA()
    ensures var n := A5();
            && Plain(n, "b", "c") && n.role == Leader && Waiting(n, "c") && AcksAll(n, "b", Stored())
            && n.base == n.lastApplied == n.commit == 0 && n.log == [NoOpAt(1, 2)] && TermAt(n, 1) == n.term == 2 && n.nextRequest == 3
  {
  }

  lemma CommittedA()
    ensures Noted(A5(), "b").(inFlight := (A5().inFlight - {"b"})["b" := InFlight(4, 1)], nextRequest := 4,
                              commit := 1, lastApplied := 1, readReady := true) == A6()
    ensures ProbeOf(A5().(commit := 1), 4) == Commit()
  {
    assert (A5().inFlight - {"b"})["b" := InFlight(4, 1)] == A6().inFlight;
  }

  lemma CommitB()
    ensures var r := OnAppendRequest(B6(), "a", Commit()); r.node == B7() && r.writes == [SaveCommit(1)]
  {
    hide B6, B7, Recognise, Matches, PlanAppend, ApplyThrough;
    HeldB();
    AppliesAll(B6().(commit := 1), 1, 1);
    assert [] + [SaveCommit(1)] == [SaveCommit(1)];
  }

  lemma HeldB()
    ensures var n := B6();
            && Recognise(n, 2, "a") == n && n.term == 2 && Matches(n, 1, 2) && PlanAppend(n, 2, []) == Nothing
            && n.waiting == map[] && n.base == n.lastApplied == n.commit == 0 && LastIndex(n) == 1 && n.role == Follower && !n.readReady
            && n.(commit := 1, lastApplied := 1) == B7()
  {
  }

  lemma CompactB()
    ensures TermAt(B7(), 1) == 2
    ensures var r := OnCompacted(B7(), 1, 2); r.node == B8() && r.writes == [Checkpoint(1, 2, true)]
  {
    assert B7().log[1..] == [];
  }

  lemma RestartB()
    ensures ApplyThrough(Restart("b", ["a", "c"], Wrong()), 1).node == B9()
  {
    NothingToApply(B9());
  }

  /** The whole log, the returned entry included, is acknowledged. */
  lemma AckB()
    ensures var r := OnAppendRequest(B9(), "a", Commit()); r.node == B10() && Send("a", WrongAck()) in r.actions
  {
    NothingToApply(B10());
  }

  lemma ProposeA()
    ensures OnPropose(A6(), ProposeDelete(2, NO_SESSION, 1, [])).node == A7()
  {
    hide Propose;
    Extends(A6(), "b", "c", 2, New());
    assert [NoOpAt(1, 2)] + [New()] == [NoOpAt(1, 2), New()];
  }

  /** The Leader commits and applies an entry only it holds. */
  lemma CommitWrongA()
    ensures var r := OnAppendReply(A7(), "b", WrongAck()); r.node == A8() && ApplyEntry(New()) in r.actions
  {
    hide OnAppendReply;
    Commits(A7(), "b", "c", "b", WrongAck(), 2);
    assert (A7().inFlight - {"b"})["b" := InFlight(5, 2)] == A8().inFlight;
  }

  lemma StandAgain()
    ensures var r := OnElectionTimeout(B10()); r.node == B11() && Send("c", PreVoteRequest(3, 2, 1)) in r.actions
  {
  }

  lemma VoteAgain()
    ensures var r := OnPreVoteRequest(C1(), "b", PreVoteRequest(3, 2, 1)); r.node == C1() && Send("b", PreVoteReply(3, 2, true)) in r.actions
    ensures var r := OnVoteRequest(C1(), "b", VoteRequest(3, 2, 1)); r.node == C2() && Send("b", VoteReply(3, true)) in r.actions
  {
  }

  lemma CampaignAgain()
    ensures var r := OnPreVoteReply(B11(), "c", PreVoteReply(3, 2, true)); r.node == B12() && Send("c", VoteRequest(3, 2, 1)) in r.actions
  {
  }

  lemma LeadAgain()
    ensures var r := OnVoteReply(B12(), "c", VoteReply(3, true)); r.node == B13() && Send("c", LastProbe()) in r.actions
  {
    hide OnVoteReply;
    Leads(B12(), "a", "c", "c");
    assert [Old()] + [NoOpAt(3, 3)] == [Old(), NoOpAt(3, 3)];
  }

  lemma ProbeC()
    ensures var r := OnAppendRequest(C2(), "b", LastProbe()); r.node == C3() && Send("b", Behind()) in r.actions
  {
  }

  lemma OfferB()
    ensures var r := OnAppendReply(B13(), "c", Behind()); r.node == B14() && Send("c", Offer()) in r.actions
  {
    var n1 := B13().(activePeers := {"c"}, nextIndex := map["a" := 4, "c" := 1], inFlight := map["a" := InFlight(1, 1)]);
    assert B13().inFlight - {"c"} == n1.inFlight;
    assert NoteReply(B13(), "c", Behind()) == n1;
    StillAtOne(n1);
    NoReads(n1, "c");
    assert AckRead(SendTo(n1, "c", 0).node, "c", 0) == Effect(SendTo(n1, "c", 0).node, []);
  }

  lemma StillAtOne(n: Node)
    requires n.matchIndex == map[] && n.commit == 1 && |n.peers| == 2
    ensures LeaderCommit(n, 3) == 1
  {
    assert Replicas(n, 3) == {} && Replicas(n, 2) == {};
    assert LeaderCommit(n, 2) == LeaderCommit(n, 1) == 1;
  }

  lemma InstallC()
    ensures var r := OnSnapshotRequest(C3(), "b", Offer(), Staged(true, true, 0)); r.node == C4() && Send("b", Installed()) in r.actions
  {
  }

  lemma FollowB()
    ensures var r := OnSnapshotReply(B14(), "c", Installed()); r.node == B15() && Send("c", Rest()) in r.actions
  {
    var n1 := B14().(snapInFlight := map[], matchIndex := map["c" := 1], nextIndex := map["a" := 4, "c" := 2]);
    assert B14().snapInFlight - {"c"} == map[];
    NoReads(n1, "c");
    assert n1.log[0..] == n1.log && n1.log[1..][1..] == [];
    assert BatchLength(n1.log[1..], 1, 64) == 1 && BatchLength(n1.log, 0, 0) == 2;
    assert EntriesBatch(n1, 2) == [Old(), NoOpAt(3, 3)];
  }

  lemma StoreC()
    ensures var r := OnAppendRequest(C4(), "b", Rest()); r.node == C5() && Send("b", LastAck()) in r.actions
  {
    assert StoreEntries(C4(), 0, [Old(), NoOpAt(3, 3)]) == C5();
    NothingToApply(C5());
  }

  /** Node b applies the returned entry. */
  lemma CommitB3()
    ensures ApplyEntry(Old()) in OnAppendReply(B15(), "c", LastAck()).actions
  {
    hide OnAppendReply;
    Commits(B15(), "a", "c", "c", LastAck(), 2);
  }

  // -------------------------------------------------------------------------- the acts

  /** Node b leads Term 1 with the vote of a and stores an entry nobody else gets. */
  lemma FirstCandidate(start: seq<Cluster>) returns (run: seq<Cluster>)
    requires Playing(RULES, start, Scene(A0(), B0(), C0(), {}, {}))
    requires start != [] && Tape(start, "b") == []
    ensures Playing(RULES, run, Scene(A0(), B2(), C0(), {Wire("b", "a", VoteRequest(1, 0, 0))}, {}))
    ensures run != [] && Tape(run, "b") == [HardRecord(HardState(1, "b"))]
  {
    hide Step, OnReceive, OnElectionTimeout, OnPreVoteRequest, OnPreVoteReply, OnVoteRequest, OnVoteReply, OnAppendRequest, OnAppendReply,
         OnSnapshotReply, OnSnapshotRequest, OnCompacted, OnPropose, OnAppendFailed, A0, B0, B1, B2, C0,
         IsRunUnder, Shows, ActsOn, Tape, Records;
    var s, r, was := Scene(A0(), B0(), C0(), {}, {}), Unchanged(A0()), start;
    run := start;
    Timers(B0(), ElectionTimeout);
    StandB();
    r := OnElectionTimeout(B0());
    was := run;
    run, s := Act(RULES, run, s, "b", ElectionTimeout, r, {Wire("b", "a", PreVoteRequest(1, 0, 0))}, {});
    Tapes(was, run, DurableOf(B0()), r.writes);
    Handlers(A0(), "b", PreVoteRequest(1, 0, 0));
    VoteA();
    r := OnPreVoteRequest(A0(), "b", PreVoteRequest(1, 0, 0));
    was := run;
    run, s := Take(RULES, run, s, "b", "a", PreVoteRequest(1, 0, 0), r, {Wire("a", "b", PreVoteReply(1, 0, true))}, {});
    Handlers(B1(), "a", PreVoteReply(1, 0, true));
    CampaignB();
    r := OnPreVoteReply(B1(), "a", PreVoteReply(1, 0, true));
    was := run;
    run, s := Take(RULES, run, s, "a", "b", PreVoteReply(1, 0, true), r, {Wire("b", "a", VoteRequest(1, 0, 0))}, {});
    Tapes(was, run, DurableOf(B1()), r.writes);
    RecordOf(DurableOf(B1()), SaveHardState(1, "b"));
    Fewer(RULES, run, s, Scene(A0(), B2(), C0(), {Wire("b", "a", VoteRequest(1, 0, 0))}, {}));
  }

  lemma FirstOffice(start: seq<Cluster>) returns (run: seq<Cluster>)
    requires Playing(RULES, start, Scene(A0(), B2(), C0(), {Wire("b", "a", VoteRequest(1, 0, 0))}, {}))
    requires start != [] && Tape(start, "b") == [HardRecord(HardState(1, "b"))]
    ensures Playing(RULES, run, Scene(A1(), B4(), C0(), {}, {}))
    ensures run != [] && Tape(run, "b") == Early()
  {
    hide Step, OnReceive, OnVoteRequest, OnVoteReply, OnPropose, A0, A1, B2, B3, B4, C0,
         IsRunUnder, Shows, ActsOn, Tape, Records;
    var s, r, was := Scene(A0(), B2(), C0(), {Wire("b", "a", VoteRequest(1, 0, 0))}, {}), Unchanged(A0()), start;
    run := start;
    Handlers(A0(), "b", VoteRequest(1, 0, 0));
    VoteA();
    r := OnVoteRequest(A0(), "b", VoteRequest(1, 0, 0));
    was := run;
    run, s := Take(RULES, run, s, "b", "a", VoteRequest(1, 0, 0), r, {Wire("a", "b", VoteReply(1, true))}, {});
    Handlers(B2(), "a", VoteReply(1, true));
    LeadB();
    r := OnVoteReply(B2(), "a", VoteReply(1, true));
    was := run;
    run, s := Take(RULES, run, s, "a", "b", VoteReply(1, true), r, {}, {});
    Tapes(was, run, DurableOf(B2()), r.writes);
    RecordOf(DurableOf(B2()), Append(NoOpAt(1, 1)));
    Timers(B3(), ProposeDelete(1, NO_SESSION, 1, []));
    ProposeB();
    r := OnPropose(B3(), ProposeDelete(1, NO_SESSION, 1, []));
    was := run;
    run, s := Act(RULES, run, s, "b", ProposeDelete(1, NO_SESSION, 1, []), r, {}, {});
    Tapes(was, run, DurableOf(B3()), r.writes);
    RecordOf(DurableOf(B3()), Append(Old()));
    Fewer(RULES, run, s, Scene(A1(), B4(), C0(), {}, {}));
  }

  /** Node a leads Term 2 with the vote of c. */
  lemma SecondLeader(start: seq<Cluster>) returns (run: seq<Cluster>)
    requires Playing(RULES, start, Scene(A1(), B4(), C0(), {}, {}))
    requires start != [] && Tape(start, "b") == Early()
    ensures Playing(RULES, run, Scene(A4(), B4(), C1(), {Wire("a", "b", Probe())}, {}))
    ensures run != [] && Tape(run, "b") == Early()
  {
    hide Step, OnReceive, OnElectionTimeout, OnPreVoteRequest, OnPreVoteReply, OnVoteRequest, OnVoteReply, OnAppendRequest, OnAppendReply,
         OnSnapshotReply, OnSnapshotRequest, OnCompacted, OnPropose, OnAppendFailed, A0, A1, A2, A3, A4, B4, C0, C1,
         IsRunUnder, Shows, ActsOn, Tape, Records;
    var s, r, was := Scene(A1(), B4(), C0(), {}, {}), Unchanged(A0()), start;
    run := start;
    Timers(A1(), ElectionTimeout);
    StandA();
    r := OnElectionTimeout(A1());
    was := run;
    run, s := Act(RULES, run, s, "a", ElectionTimeout, r, {Wire("a", "c", PreVoteRequest(2, 0, 0))}, {});
    Handlers(C0(), "a", PreVoteRequest(2, 0, 0));
    VoteC();
    r := OnPreVoteRequest(C0(), "a", PreVoteRequest(2, 0, 0));
    was := run;
    run, s := Take(RULES, run, s, "a", "c", PreVoteRequest(2, 0, 0), r, {Wire("c", "a", PreVoteReply(2, 0, true))}, {});
    Handlers(A2(), "c", PreVoteReply(2, 0, true));
    CampaignA();
    r := OnPreVoteReply(A2(), "c", PreVoteReply(2, 0, true));
    was := run;
    run, s := Take(RULES, run, s, "c", "a", PreVoteReply(2, 0, true), r, {Wire("a", "c", VoteRequest(2, 0, 0))}, {});
    Handlers(C0(), "a", VoteRequest(2, 0, 0));
    VoteC();
    r := OnVoteRequest(C0(), "a", VoteRequest(2, 0, 0));
    was := run;
    run, s := Take(RULES, run, s, "a", "c", VoteRequest(2, 0, 0), r, {Wire("c", "a", VoteReply(2, true))}, {});
    Handlers(A3(), "c", VoteReply(2, true));
    LeadA();
    r := OnVoteReply(A3(), "c", VoteReply(2, true));
    was := run;
    run, s := Take(RULES, run, s, "c", "a", VoteReply(2, true), r, {Wire("a", "b", Probe())}, {});
    Fewer(RULES, run, s, Scene(A4(), B4(), C1(), {Wire("a", "b", Probe())}, {}));
  }

  /** Node b replaces both its entries by the Leader's one. */
  lemma Replaced(start: seq<Cluster>) returns (run: seq<Cluster>)
    requires Playing(RULES, start, Scene(A4(), B4(), C1(), {Wire("a", "b", Probe())}, {}))
    requires start != [] && Tape(start, "b") == Early()
    ensures Playing(RULES, run, Scene(A6(), B6(), C1(), {Wire("a", "b", Commit())}, {}))
    ensures run != [] && Tape(run, "b") == Middle()
  {
    hide Step, OnReceive, OnElectionTimeout, OnPreVoteRequest, OnPreVoteReply, OnVoteRequest, OnVoteReply, OnAppendRequest, OnAppendReply,
         OnSnapshotReply, OnSnapshotRequest, OnCompacted, OnPropose, OnAppendFailed, A0, A4, A5, A6, B4, B5, B6, C1,
         IsRunUnder, Shows, ActsOn, Tape, Records;
    var s, r, was := Scene(A4(), B4(), C1(), {Wire("a", "b", Probe())}, {}), Unchanged(A0()), start;
    run := start;
    Handlers(B4(), "a", Probe());
    ProbeB();
    r := OnAppendRequest(B4(), "a", Probe());
    was := run;
    run, s := Take(RULES, run, s, "a", "b", Probe(), r, {Wire("b", "a", Conflict())}, {});
    Tapes(was, run, DurableOf(B4()), r.writes);
    RecordOf(DurableOf(B4()), SaveHardState(2, ""));
    Handlers(A4(), "b", Conflict());
    RetryA();
    r := OnAppendReply(A4(), "b", Conflict());
    was := run;
    run, s := Take(RULES, run, s, "b", "a", Conflict(), r, {Wire("a", "b", Fill())}, {});
    Handlers(B5(), "a", Fill());
    FillB();
    r := OnAppendRequest(B5(), "a", Fill());
    was := run;
    run, s := Take(RULES, run, s, "a", "b", Fill(), r, {Wire("b", "a", Stored())}, {});
    Tapes(was, run, DurableOf(B5()), r.writes);
    TwoRecordsOf(DurableOf(B5()), Truncate(1), Append(NoOpAt(1, 2)));
    Handlers(A5(), "b", Stored());
    CommitA();
    r := OnAppendReply(A5(), "b", Stored());
    was := run;
    run, s := Take(RULES, run, s, "b", "a", Stored(), r, {Wire("a", "b", Commit())}, {});
    Fewer(RULES, run, s, Scene(A6(), B6(), C1(), {Wire("a", "b", Commit())}, {}));
  }

  /** Node b commits and compacts it. */
  lemma Compacted(start: seq<Cluster>) returns (run: seq<Cluster>)
    requires Playing(RULES, start, Scene(A6(), B6(), C1(), {Wire("a", "b", Commit())}, {}))
    requires start != [] && Tape(start, "b") == Middle()
    ensures Playing(RULES, run, Scene(A6(), B8(), C1(), {Wire("a", "b", Commit())}, {}))
    ensures run != [] && Tape(run, "b") == Whole()
  {
    hide Step, OnReceive, OnElectionTimeout, OnPreVoteRequest, OnPreVoteReply, OnVoteRequest, OnVoteReply, OnAppendRequest, OnAppendReply,
         OnSnapshotReply, OnSnapshotRequest, OnCompacted, OnPropose, OnAppendFailed, A0, A6, C1,
         IsRunUnder, Shows, ActsOn, Tape, Records;
    var s, r, was := Scene(A6(), B6(), C1(), {Wire("a", "b", Commit())}, {}), Unchanged(A0()), start;
    run := start;
    Handlers(B6(), "a", Commit());
    CommitB();
    r := OnAppendRequest(B6(), "a", Commit());
    was := run;
    run, s := Take(RULES, run, s, "a", "b", Commit(), r, {}, {});
    Tapes(was, run, DurableOf(B6()), r.writes);
    RecordOf(DurableOf(B6()), SaveCommit(1));
    CompactB();
    r := OnCompacted(B7(), 1, 2);
    was := run;
    run, s := Compacts(RULES, run, s, "b", r);
    Tapes(was, run, DurableOf(B7()), r.writes);
    RecordOf(DurableOf(B7()), Checkpoint(1, 2, true));
    Fewer(RULES, run, s, Scene(A6(), B8(), C1(), {Wire("a", "b", Commit())}, {}));
  }

  /** It restarts, and the replaced entry is back. */
  lemma Restarted(start: seq<Cluster>) returns (run: seq<Cluster>)
    requires Playing(RULES, start, Scene(A6(), B8(), C1(), {Wire("a", "b", Commit())}, {}))
    requires start != [] && Tape(start, "b") == Whole()
    ensures Playing(RULES, run, Scene(A6(), B9(), C1(), {Wire("a", "b", Commit())}, {}))
  {
    hide A6, C1, IsRunUnder, Shows, Tape, Taped, Recover, ApplyThrough;
    Replays();
    var s;
    run, s := Falls(RULES, start, Scene(A6(), B8(), C1(), {Wire("a", "b", Commit())}, {}), "b", Wrong());
    RestartB();
    Fewer(RULES, run, s, Scene(A6(), B9(), C1(), {Wire("a", "b", Commit())}, {}));
  }

  /** Node b acknowledges the returned entry, and a commits its own in its place. */
  lemma WrongCommit(start: seq<Cluster>) returns (run: seq<Cluster>)
    requires Playing(RULES, start, Scene(A6(), B9(), C1(), {Wire("a", "b", Commit())}, {}))
    ensures Playing(RULES, run, Scene(A8(), B10(), C1(), {}, {Seen("a", ApplyEntry(New()))}))
  {
    hide Step, OnReceive, OnElectionTimeout, OnPreVoteRequest, OnPreVoteReply, OnVoteRequest, OnVoteReply, OnAppendRequest, OnAppendReply,
         OnSnapshotReply, OnSnapshotRequest, OnCompacted, OnPropose, OnAppendFailed, A0, A6, A7, A8, B9, B10, C1,
         IsRunUnder, Shows, ActsOn, Tape, Taped, Records;
    var s, r, was := Scene(A6(), B9(), C1(), {Wire("a", "b", Commit())}, {}), Unchanged(A0()), start;
    run := start;
    Handlers(B9(), "a", Commit());
    AckB();
    r := OnAppendRequest(B9(), "a", Commit());
    was := run;
    run, s := Take(RULES, run, s, "a", "b", Commit(), r, {Wire("b", "a", WrongAck())}, {});
    Timers(A6(), ProposeDelete(2, NO_SESSION, 1, []));
    ProposeA();
    r := OnPropose(A6(), ProposeDelete(2, NO_SESSION, 1, []));
    was := run;
    run, s := Act(RULES, run, s, "a", ProposeDelete(2, NO_SESSION, 1, []), r, {}, {});
    Handlers(A7(), "b", WrongAck());
    CommitWrongA();
    r := OnAppendReply(A7(), "b", WrongAck());
    was := run;
    run, s := Take(RULES, run, s, "b", "a", WrongAck(), r, {}, {Seen("a", ApplyEntry(New()))});
    Fewer(RULES, run, s, Scene(A8(), B10(), C1(), {}, {Seen("a", ApplyEntry(New()))}));
  }

  /** Node b leads Term 3 with the vote of c. */
  lemma ThirdLeader(start: seq<Cluster>) returns (run: seq<Cluster>)
    requires Playing(RULES, start, Scene(A8(), B10(), C1(), {}, {Seen("a", ApplyEntry(New()))}))
    ensures Playing(RULES, run, Scene(A8(), B13(), C2(), {Wire("b", "c", LastProbe())}, {Seen("a", ApplyEntry(New()))}))
  {
    hide Step, OnReceive, OnElectionTimeout, OnPreVoteRequest, OnPreVoteReply, OnVoteRequest, OnVoteReply, OnAppendRequest, OnAppendReply,
         OnSnapshotReply, OnSnapshotRequest, OnCompacted, OnPropose, OnAppendFailed, A0, A8, B10, B11, B12, B13, C1, C2,
         IsRunUnder, Shows, ActsOn, Tape, Taped, Records;
    var s, r, was := Scene(A8(), B10(), C1(), {}, {Seen("a", ApplyEntry(New()))}), Unchanged(A0()), start;
    run := start;
    Timers(B10(), ElectionTimeout);
    StandAgain();
    r := OnElectionTimeout(B10());
    was := run;
    run, s := Act(RULES, run, s, "b", ElectionTimeout, r, {Wire("b", "c", PreVoteRequest(3, 2, 1))}, {});
    Handlers(C1(), "b", PreVoteRequest(3, 2, 1));
    VoteAgain();
    r := OnPreVoteRequest(C1(), "b", PreVoteRequest(3, 2, 1));
    was := run;
    run, s := Take(RULES, run, s, "b", "c", PreVoteRequest(3, 2, 1), r, {Wire("c", "b", PreVoteReply(3, 2, true))}, {});
    Handlers(B11(), "c", PreVoteReply(3, 2, true));
    CampaignAgain();
    r := OnPreVoteReply(B11(), "c", PreVoteReply(3, 2, true));
    was := run;
    run, s := Take(RULES, run, s, "c", "b", PreVoteReply(3, 2, true), r, {Wire("b", "c", VoteRequest(3, 2, 1))}, {});
    Handlers(C1(), "b", VoteRequest(3, 2, 1));
    VoteAgain();
    r := OnVoteRequest(C1(), "b", VoteRequest(3, 2, 1));
    was := run;
    run, s := Take(RULES, run, s, "b", "c", VoteRequest(3, 2, 1), r, {Wire("c", "b", VoteReply(3, true))}, {});
    Handlers(B12(), "c", VoteReply(3, true));
    LeadAgain();
    r := OnVoteReply(B12(), "c", VoteReply(3, true));
    was := run;
    run, s := Take(RULES, run, s, "c", "b", VoteReply(3, true), r, {Wire("b", "c", LastProbe())}, {});
    Fewer(RULES, run, s, Scene(A8(), B13(), C2(), {Wire("b", "c", LastProbe())}, {Seen("a", ApplyEntry(New()))}));
  }

  /** It sends c its Snapshot and its log. */
  lemma Transferred(start: seq<Cluster>) returns (run: seq<Cluster>)
    requires Playing(RULES, start, Scene(A8(), B13(), C2(), {Wire("b", "c", LastProbe())}, {Seen("a", ApplyEntry(New()))}))
    ensures Playing(RULES, run, Scene(A8(), B15(), C5(), {Wire("c", "b", LastAck())}, {Seen("a", ApplyEntry(New()))}))
  {
    hide Step, OnReceive, OnElectionTimeout, OnPreVoteRequest, OnPreVoteReply, OnVoteRequest, OnVoteReply, OnAppendRequest, OnAppendReply,
         OnSnapshotReply, OnSnapshotRequest, OnCompacted, OnPropose, OnAppendFailed, A0, A8, B13, B14, B15, C2, C3, C4, C5,
         IsRunUnder, Shows, ActsOn, Tape, Taped, Records;
    var s, r, was := Scene(A8(), B13(), C2(), {Wire("b", "c", LastProbe())}, {Seen("a", ApplyEntry(New()))}), Unchanged(A0()), start;
    run := start;
    Handlers(C2(), "b", LastProbe());
    ProbeC();
    r := OnAppendRequest(C2(), "b", LastProbe());
    was := run;
    run, s := Take(RULES, run, s, "b", "c", LastProbe(), r, {Wire("c", "b", Behind())}, {});
    Handlers(B13(), "c", Behind());
    OfferB();
    r := OnAppendReply(B13(), "c", Behind());
    was := run;
    run, s := Take(RULES, run, s, "c", "b", Behind(), r, {Wire("b", "c", Offer())}, {});
    InstallC();
    r := OnSnapshotRequest(C3(), "b", Offer(), Staged(true, true, 0));
    run, s := TakeChunk(RULES, run, s, "b", "c", Offer(), Staged(true, true, 0), r, {Wire("c", "b", Installed())});
    Handlers(B14(), "c", Installed());
    FollowB();
    r := OnSnapshotReply(B14(), "c", Installed());
    was := run;
    run, s := Take(RULES, run, s, "c", "b", Installed(), r, {Wire("b", "c", Rest())}, {});
    Handlers(C4(), "b", Rest());
    StoreC();
    r := OnAppendRequest(C4(), "b", Rest());
    was := run;
    run, s := Take(RULES, run, s, "b", "c", Rest(), r, {Wire("c", "b", LastAck())}, {});
    Fewer(RULES, run, s, Scene(A8(), B15(), C5(), {Wire("c", "b", LastAck())}, {Seen("a", ApplyEntry(New()))}));
  }

  /** Without the exclusion of those restarts state-machine safety is false of the
      code, however well-behaved deliveries are. */
  lemma SafetyNeedsFaithfulRestarts()
    ensures exists run :: IsRunUnder(Rules(true, false), run) && Disagree(run[|run| - 1])
  {
    hide IsRunUnder, Shows, Tape, Taped, OnReceive, OnAppendReply, ActsOn;
    var run := Starts(RULES);
    run := FirstCandidate(run);
    run := FirstOffice(run);
    run := SecondLeader(run);
    run := Replaced(run);
    run := Compacted(run);
    run := Restarted(run);
    run := WrongCommit(run);
    run := ThirdLeader(run);
    run := Transferred(run);
    Handlers(B15(), "c", LastAck());
    CommitB3();
    var s := Scene(A8(), B15(), C5(), {Wire("c", "b", LastAck())}, {Seen("a", ApplyEntry(New()))});
    run, s := Take(RULES, run, s, "c", "b", LastAck(), OnAppendReply(B15(), "c", LastAck()), {}, {Seen("b", ApplyEntry(Old()))});
    ShownIsSeen(RULES, run, s);
    var x, y := Seen("a", ApplyEntry(New())), Seen("b", ApplyEntry(Old()));
    assert x in run[|run| - 1].seen && y in run[|run| - 1].seen;
    assert x.action.entry.index == y.action.entry.index && x.action.entry.term != y.action.entry.term;
    assert Disagree(run[|run| - 1]);
  }
}
