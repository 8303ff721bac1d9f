/** Conflict repair can stick for ever in a run with neither excluded event: a
    rejection delayed past the Follower's catching up and compacting sends the
    Leader back to index 1, below the Follower's Snapshot. */
module Stalled {
  import opened Types
  import opened Messages
  import opened Node
  import opened Cluster
  import opened Stage
  import Repair
  import Runs

  // -------------------------------------------------------------- entries and letters

  function Second(): Entry { Entry(2, 1, DeleteKey, NO_SESSION, 1, [], []) }
  function Both(): seq<Entry> { [NoOpAt(1, 1), Second()] }

  function Probe(): Message { AppendRequest(1, 1, 1, 1, [], 0, 0) }
  function Missing(): Message { AppendReply(1, 1, false, 0, 0, 1, 0) }
  function Fill(): Message { AppendRequest(1, 3, 0, 0, Both(), 0, 0) }
  function Stored(): Message { AppendReply(1, 3, true, 2, 0, 0, 0) }
  function Commit(): Message { AppendRequest(1, 4, 2, 1, [], 2, 0) }

  // ----------------------------------------------------------------------------- nodes

  function A0(): Node { NewNode("a", "b", "c") }
  function A1(): Node { A0().(role := PreCandidate, preVotes := {"a"}) }
  function A2(): Node { A1().(role := Candidate, preVotes := {"a", "b"}, term := 1, votedFor := "a", votes := {"a"}) }
  function A3(): Node {
    A2().(role := Leader, leaderId := "a", votes := {"a", "b"}, log := [NoOpAt(1, 1)], nextIndex := map["b" := 2, "c" := 2],
          inFlight := map["b" := InFlight(1, 0), "c" := InFlight(2, 0)], nextRequest := 2)
  }
  function A4(): Node { A3().(log := Both()) }
  function A5(): Node {
    A4().(activePeers := {"b"}, nextIndex := map["b" := 1, "c" := 2], inFlight := map["b" := InFlight(3, 0), "c" := InFlight(2, 0)], nextRequest := 3)
  }
  function A6(): Node {
    A5().(matchIndex := map["b" := 2], nextIndex := map["b" := 3, "c" := 2], inFlight := map["b" := InFlight(4, 2), "c" := InFlight(2, 0)],
          nextRequest := 4, commit := 2, lastApplied := 2, readReady := true)
  }
  function A7(): Node { A6().(inFlight := map["c" := InFlight(2, 0)]) }
  function A8(): Node { A7().(nextIndex := map["b" := 1, "c" := 2], inFlight := map["b" := InFlight(5, 2), "c" := InFlight(2, 0)], nextRequest := 5) }

  function B0(): Node { NewNode("b", "a", "c") }
  function B1(): Node { B0().(term := 1, votedFor := "a") }
  function B2(): Node { B1().(leaderId := "a", recentContact := true) }
  function B3(): Node { B2().(log := Both()) }
  function B4(): Node { B3().(commit := 2, lastApplied := 2) }
  function B5(): Node { B4().(log := [], base := 2, baseTerm := 1) }

  function C0(): Node { NewNode("c", "a", "b") }

  // ------------------------------------------------------------------- single handlers

  lemma StandA()
    ensures var r := OnElectionTimeout(A0()); r.node == A1() && Send("b", PreVoteRequest(1, 0, 0)) in r.actions
  {
  }

  lemma VoteB()
    ensures var r := OnPreVoteRequest(B0(), "a", PreVoteRequest(1, 0, 0)); r.node == B0() && Send("a", PreVoteReply(1, 0, true)) in r.actions
    ensures var r := OnVoteRequest(B0(), "a", VoteRequest(1, 0, 0)); r.node == B1() && Send("a", VoteReply(1, true)) in r.actions
  {
  }

  lemma CampaignA()
    ensures var r := OnPreVoteReply(A1(), "b", PreVoteReply(1, 0, true)); r.node == A2() && Send("b", VoteRequest(1, 0, 0)) in r.actions
  {
  }

  lemma LeadA()
    ensures var r := OnVoteReply(A2(), "b", VoteReply(1, true)); r.node == A3() && Send("b", Probe()) in r.actions
  {
    hide OnVoteReply;
    Leads(A2(), "b", "c", "b");
    assert [] + [NoOpAt(1, 1)] == [NoOpAt(1, 1)];
  }

  lemma ProposeA()
    ensures OnPropose(A3(), ProposeDelete(1, NO_SESSION, 1, [])).node == A4()
  {
    hide Propose;
    Extends(A3(), "b", "c", 1, Second());
    assert [NoOpAt(1, 1)] + [Second()] == Both();
  }

  lemma ProbeB()
    ensures var r := OnAppendRequest(B1(), "a", Probe()); r.node == B2() && Send("a", Missing()) in r.actions
  {
  }

  lemma RetryA()
    ensures var r := OnAppendReply(A4(), "b", Missing()); r.node == A5() && Send("b", Fill()) in r.actions
  {
    hide LeaderCommit, OnAppendReply;
    NothingCommitted(A4(), "b", 1);
    WholeBatch(A4());
    Retries(A4(), "b", "c", "b", Missing(), 1);
    assert (A4().inFlight - {"b"})["b" := InFlight(3, 0)] == A5().inFlight;
  }

  lemma WholeBatch(n: Node)
    requires n.base == 0 && n.log == Both()
    ensures EntriesBatch(n, 1) == Both()
  {
    assert n.log[0..] == n.log && n.log[1..][1..] == [];
    assert BatchLength(n.log[1..], 1, 64) == 1 && BatchLength(n.log, 0, 0) == 2;
  }

  lemma FillB()
    ensures var r := OnAppendRequest(B2(), "a", Fill()); r.node == B3() && Send("a", Stored()) in r.actions
  {
    assert StoreEntries(B2(), 0, Both()) == B3();
    NothingToApply(B3());
  }

  lemma CommitA()
    ensures var r := OnAppendReply(A5(), "b", Stored()); r.node == A6() && Send("b", Commit()) in r.actions
  {
    hide OnAppendReply;
    Commits(A5(), "b", "c", "b", Stored(), 1);
    ReadReadyA();
    assert (A5().inFlight - {"b"})["b" := InFlight(4, 2)] == A6().inFlight;
  }

  /** The no-op of its own Term, applied on the way, makes the Leader ready for reads. */
  lemma ReadReadyA()
    ensures OnAppendReply(A5(), "b", Stored()).node.readReady
  {
    hide LeaderCommit, NoteReply, SendAll, ApplyThrough, TermAt;
    var n1 := Noted(A5(), "b").(commit := 2);
    NotesAll(A5(), "b", Stored());
    TermOfLast();
    CommitsLast(A5(), "b", "c", "b");
    SendsToOther(n1, "b", "c", "b");
    var sent := SendAll(n1, n1.peers, 0);
    assert AckRead(sent.node, "b", 0) == Effect(sent.node, []);
    FirstMakesReady(sent.node);
  }

  lemma TermOfLast()
    ensures TermAt(A5(), 2) == 1
  {
  }

  lemma FirstMakesReady(n: Node)
    requires n.role == Leader && n.term == 1 && n.base == 0 == n.lastApplied && n.log == Both() && n.waiting == map[]
    ensures ApplyThrough(n, 2).node.readReady
  {
    AppliesAll(ApplyOne(n).node, 2, 2);
  }

  lemma CommitB()
    ensures OnAppendRequest(B3(), "a", Commit()).node == B4()
  {
    hide B3, B4, Recognise, Matches, PlanAppend, ApplyThrough;
    HeldB();
    AppliesAll(B3().(commit := 2), 2, 2);
  }

  lemma HeldB()
    ensures var n := B3();
            && Recognise(n, 1, "a") == n && n.term == 1 && Matches(n, 2, 1) && PlanAppend(n, 3, []) == Nothing
            && n.waiting == map[] && n.base == n.lastApplied == n.commit == 0 && LastIndex(n) == 2 && n.role == Follower && !n.readReady
            && n.(commit := 2, lastApplied := 2) == B4()
  {
  }

  lemma CompactB()
    ensures TermAt(B4(), 2) == 1 && OnCompacted(B4(), 2, 1).node == B5()
  {
    assert B4().log[2..] == [];
  }

  lemma GiveUpA()
    ensures OnAppendFailed(A6(), "b", 4).node == A7()
  {
    assert A6().inFlight - {"b"} == A7().inFlight;
  }

  lemma FallBackA()
    ensures OnAppendReply(A7(), "b", Missing()).node == A8()
  {
    hide OnAppendReply;
    assert LeaderCommit(Retrying(A7(), "b", 1), 2) == 2;
    Retries(A7(), "b", "c", "b", Missing(), 1);
    assert (A7().inFlight - {"b"})["b" := InFlight(5, 2)] == A8().inFlight;
    assert A7().activePeers + {"b"} == A8().activePeers;
  }

  // -------------------------------------------------------------------------- the acts

  lemma Stands(start: seq<Cluster>) returns (run: seq<Cluster>)
    requires Playing(GUARDED, start, Scene(A0(), B0(), C0(), {}, {}))
    ensures Playing(GUARDED, run, Scene(A2(), B0(), C0(), {Wire("a", "b", VoteRequest(1, 0, 0))}, {}))
  {
    hide Step, OnReceive, OnElectionTimeout, OnPreVoteRequest, OnPreVoteReply, OnVoteRequest, OnVoteReply, OnAppendRequest, OnAppendReply, OnPropose, A1, A2, B0, C0,
         IsRunUnder, Shows, Taped, ActsOn;
    var s := Scene(A0(), B0(), C0(), {}, {});
    Timers(A0(), ElectionTimeout);
    StandA();
    run, s := Act(GUARDED, start, s, "a", ElectionTimeout, OnElectionTimeout(A0()), {Wire("a", "b", PreVoteRequest(1, 0, 0))}, {});
    Handlers(B0(), "a", PreVoteRequest(1, 0, 0));
    VoteB();
    var r := OnPreVoteRequest(B0(), "a", PreVoteRequest(1, 0, 0));
    run, s := Take(GUARDED, run, s, "a", "b", PreVoteRequest(1, 0, 0), r, {Wire("b", "a", PreVoteReply(1, 0, true))}, {});
    Handlers(A1(), "b", PreVoteReply(1, 0, true));
    CampaignA();
    r := OnPreVoteReply(A1(), "b", PreVoteReply(1, 0, true));
    run, s := Take(GUARDED, run, s, "b", "a", PreVoteReply(1, 0, true), r, {Wire("a", "b", VoteRequest(1, 0, 0))}, {});
    Fewer(GUARDED, run, s, Scene(A2(), B0(), C0(), {Wire("a", "b", VoteRequest(1, 0, 0))}, {}));
  }

  lemma Elected(start: seq<Cluster>) returns (run: seq<Cluster>)
    requires Playing(GUARDED, start, Scene(A2(), B0(), C0(), {Wire("a", "b", VoteRequest(1, 0, 0))}, {}))
    ensures Playing(GUARDED, run, Scene(A3(), B1(), C0(), {Wire("a", "b", Probe())}, {}))
  {
    hide Step, OnReceive, OnElectionTimeout, OnPreVoteRequest, OnPreVoteReply, OnVoteRequest, OnVoteReply, A2, A3, B0, B1, C0,
         IsRunUnder, Shows, Taped, ActsOn;
    var s := Scene(A2(), B0(), C0(), {Wire("a", "b", VoteRequest(1, 0, 0))}, {});
    Handlers(B0(), "a", VoteRequest(1, 0, 0));
    VoteB();
    var r := OnVoteRequest(B0(), "a", VoteRequest(1, 0, 0));
    run, s := Take(GUARDED, start, s, "a", "b", VoteRequest(1, 0, 0), r, {Wire("b", "a", VoteReply(1, true))}, {});
    Handlers(A2(), "b", VoteReply(1, true));
    LeadA();
    r := OnVoteReply(A2(), "b", VoteReply(1, true));
    run, s := Take(GUARDED, run, s, "b", "a", VoteReply(1, true), r, {Wire("a", "b", Probe())}, {});
    Fewer(GUARDED, run, s, Scene(A3(), B1(), C0(), {Wire("a", "b", Probe())}, {}));
  }

  lemma Refused(start: seq<Cluster>) returns (run: seq<Cluster>)
    requires Playing(GUARDED, start, Scene(A3(), B1(), C0(), {Wire("a", "b", Probe())}, {}))
    ensures Playing(GUARDED, run, Scene(A4(), B2(), C0(), {Wire("b", "a", Missing())}, {}))
  {
    hide Step, OnReceive, OnPropose, OnAppendRequest, OnAppendReply, A3, A4, B1, B2, C0,
         IsRunUnder, Shows, Taped, ActsOn;
    var s := Scene(A3(), B1(), C0(), {Wire("a", "b", Probe())}, {});
    var ev := ProposeDelete(1, NO_SESSION, 1, []);
    Timers(A3(), ev);
    ProposeA();
    run, s := Act(GUARDED, start, s, "a", ev, OnPropose(A3(), ev), {}, {});
    Handlers(B1(), "a", Probe());
    ProbeB();
    run, s := Take(GUARDED, run, s, "a", "b", Probe(), OnAppendRequest(B1(), "a", Probe()), {Wire("b", "a", Missing())}, {});
    Fewer(GUARDED, run, s, Scene(A4(), B2(), C0(), {Wire("b", "a", Missing())}, {}));
  }

  lemma CaughtUp(start: seq<Cluster>) returns (run: seq<Cluster>)
    requires Playing(GUARDED, start, Scene(A4(), B2(), C0(), {Wire("b", "a", Missing())}, {}))
    ensures Playing(GUARDED, run, Scene(A6(), B3(), C0(), {Wire("b", "a", Missing()), Wire("a", "b", Commit())}, {}))
  {
    hide Step, OnReceive, OnAppendRequest, OnAppendReply, A4, A5, A6, B2, B3, C0,
         IsRunUnder, Shows, Taped, ActsOn;
    var s := Scene(A4(), B2(), C0(), {Wire("b", "a", Missing())}, {});
    run := start;
    Handlers(A4(), "b", Missing());
    RetryA();
    run, s := Take(GUARDED, run, s, "b", "a", Missing(), OnAppendReply(A4(), "b", Missing()), {Wire("a", "b", Fill())}, {});
    Handlers(B2(), "a", Fill());
    FillB();
    run, s := Take(GUARDED, run, s, "a", "b", Fill(), OnAppendRequest(B2(), "a", Fill()), {Wire("b", "a", Stored())}, {});
    Handlers(A5(), "b", Stored());
    CommitA();
    run, s := Take(GUARDED, run, s, "b", "a", Stored(), OnAppendReply(A5(), "b", Stored()), {Wire("a", "b", Commit())}, {});
    Fewer(GUARDED, run, s, Scene(A6(), B3(), C0(), {Wire("b", "a", Missing()), Wire("a", "b", Commit())}, {}));
  }

  lemma SentBack(start: seq<Cluster>) returns (run: seq<Cluster>)
    requires Playing(GUARDED, start, Scene(A6(), B3(), C0(), {Wire("b", "a", Missing()), Wire("a", "b", Commit())}, {}))
    ensures Playing(GUARDED, run, Scene(A8(), B5(), C0(), {}, {}))
  {
    hide Step, OnReceive, OnCompacted, OnAppendRequest, OnAppendReply, OnAppendFailed, A6, A7, A8, B3, B5, C0,
         IsRunUnder, Shows, Taped, ActsOn, TermAt;
    var s := Scene(A6(), B3(), C0(), {Wire("b", "a", Missing()), Wire("a", "b", Commit())}, {});
    Handlers(B3(), "a", Commit());
    CommitB();
    run, s := Take(GUARDED, start, s, "a", "b", Commit(), OnAppendRequest(B3(), "a", Commit()), {}, {});
    CompactB();
    run, s := Compacts(GUARDED, run, s, "b", OnCompacted(B4(), 2, 1));
    Timers(A6(), AppendFailed("b", 4));
    GiveUpA();
    run, s := Act(GUARDED, run, s, "a", AppendFailed("b", 4), OnAppendFailed(A6(), "b", 4), {}, {});
    Handlers(A7(), "b", Missing());
    FallBackA();
    run, s := Take(GUARDED, run, s, "b", "a", Missing(), OnAppendReply(A7(), "b", Missing()), {}, {});
    Fewer(GUARDED, run, s, Scene(A8(), B5(), C0(), {}, {}));
  }

  /** Between these two Nodes every request is refused for ever. */
  ghost predicate Stuck(c: Cluster, id: NodeId, peer: NodeId) {
    && id in c.hosts && peer in c.hosts && id != peer
    && var n, f := c.hosts[id].node, c.hosts[peer].node;
    && n.role == Leader && f.term == n.term && peer in n.nextIndex
    && Repair.Settle(f, n, n.nextIndex[peer]) == Repair.Stuck
  }

  /** A run with neither excluded event reaches a Leader whose repair of a Follower
      never ends. */
  lemma RepairCanStick()
    ensures exists run :: IsRun(run) && Stuck(run[|run| - 1], "a", "b")
  {
    hide IsRunUnder, Shows, Tape;
    var run := Starts(GUARDED);
    run := Stands(run);
    run := Elected(run);
    run := Refused(run);
    run := CaughtUp(run);
    run := SentBack(run);
    StuckAtEnd(run);
  }

  lemma StuckAtEnd(run: seq<Cluster>)
    requires Playing(GUARDED, run, Scene(A8(), B5(), C0(), {}, {}))
    ensures IsRun(run) && run != [] && Stuck(run[|run| - 1], "a", "b")
  {
    hide IsRunUnder, Repair.Facing, Repair.Settle;
    NotEmpty(GUARDED, run);
    assert IsRun(run);
    var c := run[|run| - 1];
    assert Runs.Reachable(c);
    var s := Repair.ReachableFacing(c, "a", "b");
    Repair.RepairStuckIff(s, "a", A8(), "b", B5(), 1);
  }
}
