/** The run itself, act by act; see StaleReplies. */
module Divergence {
  import opened Types
  import opened Messages
  import opened Node
  import opened Cluster
  import opened Stage
  import opened StaleReplies

  const RULES := Rules(false, true)

  // -------------------------------------------------------------------- messages

  function Probe(): Message { AppendRequest(1, 1, 1, 1, [], 0, 0) }
  function Missing(): Message { AppendReply(1, 1, false, 0, 0, 1, 0) }
  function Filling(): Message { AppendRequest(1, 3, 0, 0, Shared(), 0, 0) }
  function Stale(): Message { AppendReply(3, 1, false, 4, 0, 0, 0) }
  function Batch(id: nat, commit: nat): Message { AppendRequest(3, id, 0, 0, Shared(), commit, 0) }
  function WrongAck(): Message { AppendReply(3, 6, true, 4, 0, 0, 0) }

  // ----------------------------------------------------------------------- nodes

  function A0(): Node { NewNode("a", "b", "c") }
  function A1(): Node { A0().(role := PreCandidate, preVotes := {"a"}) }
  function A2(): Node { A1().(role := Candidate, preVotes := {"a", "b"}, term := 1, votedFor := "a", votes := {"a"}) }
  function A3(): Node {
    A2().(role := Leader, leaderId := "a", votes := {"a", "b"}, log := [NoOpAt(1, 1)], nextIndex := map["b" := 2, "c" := 2],
          inFlight := map["b" := InFlight(1, 0), "c" := InFlight(2, 0)], nextRequest := 2)
  }
  function A5(): Node { A3().(log := Shared() + [LargeAt(3)]) }
  function A6(): Node {
    A5().(activePeers := {"b"}, nextIndex := map["b" := 1, "c" := 2], inFlight := map["b" := InFlight(3, 0), "c" := InFlight(2, 0)], nextRequest := 3)
  }
  function A7(): Node { A0().(term := 2, log := Shared() + [LargeAt(3)], nextRequest := 3) }
  function A8(): Node { A7().(role := PreCandidate, preVotes := {"a"}) }
  function A9(): Node { A8().(role := Candidate, preVotes := {"a", "c"}, term := 3, votedFor := "a", votes := {"a"}) }
  function A10(): Node {
    A9().(role := Leader, leaderId := "a", votes := {"a", "c"}, log := Kept(), nextIndex := map["b" := 5, "c" := 5],
          inFlight := map["b" := InFlight(4, 0), "c" := InFlight(5, 0)], nextRequest := 5)
  }
  function A11(): Node { A10().(inFlight := map["c" := InFlight(5, 0)]) }
  function A12(): Node {
    A11().(activePeers := {"b"}, nextIndex := map["b" := 1, "c" := 5], inFlight := map["b" := InFlight(6, 0), "c" := InFlight(5, 0)], nextRequest := 6)
  }
  function A13(): Node {
    A12().(matchIndex := map["b" := 4], nextIndex := map["b" := 5, "c" := 5], inFlight := map["b" := InFlight(7, 4), "c" := InFlight(5, 0)],
           nextRequest := 7, commit := 4, lastApplied := 4, readReady := true)
  }
  function A14(): Node { A13().(inFlight := map["c" := InFlight(5, 0)]) }

  function B0(): Node { NewNode("b", "a", "c") }
  function B1(): Node { B0().(term := 1, votedFor := "a") }
  function B2(): Node { B1().(leaderId := "a", recentContact := true) }
  function B3(): Node { B2().(log := Shared()) }
  function B4(): Node { B3().(role := PreCandidate, preVotes := {"b"}, leaderId := "", recentContact := false) }
  function B5(): Node { B4().(role := Candidate, preVotes := {"b", "c"}, term := 2, votedFor := "b", votes := {"b"}) }
  function B6(): Node {
    B5().(role := Leader, leaderId := "b", votes := {"b", "c"}, log := Shared() + [NoOpAt(3, 2)], nextIndex := map["a" := 4, "c" := 4],
          inFlight := map["a" := InFlight(1, 0), "c" := InFlight(2, 0)], nextRequest := 2)
  }
  function B7(): Node { B6().(log := Rival()) }
  function B8(): Node { B0().(term := 3, log := Rival(), nextRequest := 2) }
  function B9(): Node { B8().(leaderId := "a", recentContact := true) }

  function C0(): Node { NewNode("c", "a", "b") }
  function C1(): Node { C0().(term := 2, votedFor := "b") }
  function C2(): Node { C0().(term := 3, votedFor := "a") }

  // ------------------------------------------------------------- single handlers

  lemma StandA()
    ensures var r := OnElectionTimeout(A0()); r.node == A1() && Send("b", PreVoteRequest(1, 0, 0)) in r.actions
  {
  }

  lemma CampaignA()
    ensures var r := OnPreVoteReply(A1(), "b", PreVoteReply(1, 0, true)); r.node == A2() && Send("b", VoteRequest(1, 0, 0)) in r.actions
  {
  }

  lemma VoteB()
    ensures var r := OnPreVoteRequest(B0(), "a", PreVoteRequest(1, 0, 0)); r.node == B0() && Send("a", PreVoteReply(1, 0, true)) in r.actions
    ensures var r := OnVoteRequest(B0(), "a", VoteRequest(1, 0, 0)); r.node == B1() && Send("a", VoteReply(1, true)) in r.actions
  {
  }

  lemma ProposeA()
    ensures OnPropose(A3(), ProposeSet(1, NO_SESSION, 1, [], Large())).node == A3().(log := Shared())
    ensures OnPropose(A3().(log := Shared()), ProposeSet(2, NO_SESSION, 1, [], Large())).node == A5()
  {
    hide Propose;
    Extends(A3(), "b", "c", 1, LargeAt(2));
    Extends(A3().(log := Shared()), "b", "c", 2, LargeAt(3));
    assert [NoOpAt(1, 1)] + [LargeAt(2)] == Shared();
  }

  lemma ProbeB()
    ensures var r := OnAppendRequest(B1(), "a", Probe()); r.node == B2() && Send("a", Missing()) in r.actions
  {
  }

  lemma FillB()
    ensures OnAppendRequest(B2(), "a", Filling()).node == B3()
  {
    assert StoreEntries(B2(), 0, Shared()) == B3();
    NothingToApply(B3());
  }

  lemma StandB()
    ensures var r := OnElectionTimeout(B3()); r.node == B4() && Send("c", PreVoteRequest(2, 2, 1)) in r.actions
  {
  }

  lemma CampaignB()
    ensures var r := OnPreVoteReply(B4(), "c", PreVoteReply(2, 0, true));
            r.node == B5() && Send("a", VoteRequest(2, 2, 1)) in r.actions && Send("c", VoteRequest(2, 2, 1)) in r.actions
  {
  }

  lemma VoteC()
    ensures var r := OnPreVoteRequest(C0(), "b", PreVoteRequest(2, 2, 1)); r.node == C0() && Send("b", PreVoteReply(2, 0, true)) in r.actions
    ensures var r := OnVoteRequest(C0(), "b", VoteRequest(2, 2, 1)); r.node == C1() && Send("b", VoteReply(2, true)) in r.actions
  {
  }

  lemma ProposeB()
    ensures OnPropose(B6(), ProposeDelete(1, NO_SESSION, 1, [])).node == B7()
  {
    hide Propose;
    Extends(B6(), "a", "c", 1, Rival()[3]);
    assert Shared() + [NoOpAt(3, 2)] + [Rival()[3]] == Rival();
  }

  lemma RefuseA()
    ensures OnVoteRequest(A6(), "b", VoteRequest(2, 2, 1)).node == A7()
  {
  }

  lemma StandAgain()
    ensures var r := OnElectionTimeout(A7()); r.node == A8() && Send("c", PreVoteRequest(3, 3, 1)) in r.actions
  {
  }

  lemma VoteAgain()
    ensures var r := OnPreVoteRequest(C1(), "a", PreVoteRequest(3, 3, 1)); r.node == C1() && Send("a", PreVoteReply(3, 2, true)) in r.actions
    ensures var r := OnVoteRequest(C1(), "a", VoteRequest(3, 3, 1)); r.node == C2() && Send("a", VoteReply(3, true)) in r.actions
  {
  }

  lemma CampaignAgain()
    ensures var r := OnPreVoteReply(A8(), "c", PreVoteReply(3, 2, true));
            r.node == A9() && Send("b", VoteRequest(3, 3, 1)) in r.actions && Send("c", VoteRequest(3, 3, 1)) in r.actions
  {
  }

  lemma RefuseB()
    ensures OnVoteRequest(B7(), "a", VoteRequest(3, 3, 1)).node == B8()
  {
  }

  lemma RejectProbe()
    ensures var r := OnAppendRequest(B8(), "a", Probe()); r.node == B8() && Send("a", Stale()) in r.actions
  {
  }

  lemma GiveUp()
    ensures OnAppendFailed(A10(), "b", 4).node == A11()
    ensures OnAppendFailed(A13(), "b", 7).node == A14()
  {
    assert map["b" := InFlight(4, 0), "c" := InFlight(5, 0)] - {"b"} == map["c" := InFlight(5, 0)];
    assert map["b" := InFlight(7, 4), "c" := InFlight(5, 0)] - {"b"} == map["c" := InFlight(5, 0)];
  }

  /** The whole log is acknowledged for a request that ends at index 2. */
  lemma AckAll()
    ensures var r := OnAppendRequest(B8(), "a", Batch(6, 0)); r.node == B9() && Send("a", WrongAck()) in r.actions
  {
    SharedWithRival(B9());
    NothingToApply(B9());
  }

  lemma SharedWithRival(n: Node)
    requires n.base == 0 && n.log == Rival()
    ensures PlanAppend(n, 1, Shared()) == Nothing
  {
    assert Shared()[1..] == [LargeAt(2)] && [LargeAt(2)][1..] == [];
    assert PlanAppend(n, 3, []) == Nothing;
    assert PlanAppend(n, 2, [LargeAt(2)]) == Nothing;
  }

  // ------------------------------------------------------------ applying the logs

  /** The Leader commits and applies on the strength of the acknowledgement. */
  lemma CommitA()
    ensures var r := OnAppendReply(A12(), "b", WrongAck()); r.node == A13() && ApplyEntry(LargeAt(3)) in r.actions
  {
    hide OnAppendReply;
    Commits(A12(), "b", "c", "b", WrongAck(), 3);
    assert (A12().inFlight - {"b"})["b" := InFlight(7, 4)] == A13().inFlight;
  }

  lemma ApplyB()
    ensures ApplyEntry(NoOpAt(3, 2)) in OnAppendRequest(B9(), "a", Batch(8, 4)).actions
    ensures OnAppendRequest(B9(), "a", Batch(8, 4)).node.base == 0
  {
    SharedWithRival(B9());
    AppliesAll(B9().(commit := 4), 4, 3);
  }

  lemma LeadA()
    ensures var r := OnVoteReply(A2(), "b", VoteReply(1, true)); r.node == A3() && Send("b", Probe()) in r.actions
  {
    hide OnVoteReply;
    Leads(A2(), "b", "c", "b");
    assert [] + [NoOpAt(1, 1)] == [NoOpAt(1, 1)];
  }

  lemma LeadB()
    ensures OnVoteReply(B5(), "c", VoteReply(2, true)).node == B6()
  {
    hide OnVoteReply;
    Leads(B5(), "a", "c", "c");
  }

  lemma LeadAgain()
    ensures OnVoteReply(A9(), "c", VoteReply(3, true)).node == A10()
  {
    hide OnVoteReply;
    Leads(A9(), "b", "c", "c");
    assert Shared() + [LargeAt(3)] + [NoOpAt(4, 3)] == Kept();
  }

  lemma FillA()
    ensures var r := OnAppendReply(A5(), "b", Missing()); r.node == A6() && Send("b", Filling()) in r.actions
  {
    hide OnAppendReply, NoteReply, LeaderCommit;
    NothingCommitted(A5(), "b", 1);
    FallsBack(A5(), "b", "c", "b", Missing());
    assert (A5().inFlight - {"b"})["b" := InFlight(3, 0)] == A6().inFlight;
  }

  lemma FallBackA()
    ensures var r := OnAppendReply(A11(), "b", Stale()); r.node == A12() && Send("b", Batch(6, 0)) in r.actions
  {
    hide OnAppendReply, NoteReply, LeaderCommit;
    NothingCommitted(A11(), "b", 1);
    FallsBack(A11(), "b", "c", "b", Stale());
    assert (A11().inFlight - {"b"})["b" := InFlight(6, 0)] == A12().inFlight;
  }

  lemma FallBackAgain()
    ensures var r := OnAppendReply(A14(), "b", Stale()); r.node.base == 0 && Send("b", Batch(8, 4)) in r.actions
  {
    hide OnAppendReply, NoteReply, LeaderCommit;
    AllCommitted(A14(), "b");
    FallsBack(A14(), "b", "c", "b", Stale());
  }

  lemma AllCommitted(n: Node, from: NodeId)
    requires n.commit == LastIndex(n)
    ensures LeaderCommit(Retrying(n, from, 1), LastIndex(n)) == n.commit
  {
  }

  // -------------------------------------------------------------------- the acts

  /** Node a leads Term 1. */
  lemma FirstTerm(start: seq<Cluster>) returns (run: seq<Cluster>)
    requires Playing(RULES, start, Scene(A0(), B0(), C0(), {}, {}))
    ensures Playing(RULES, run, Scene(A3(), B1(), C0(), {Wire("a", "b", Probe())}, {}))
  {
    hide Step, OnReceive, OnElectionTimeout, OnPreVoteRequest, OnPreVoteReply, OnVoteRequest, OnVoteReply, OnAppendRequest, OnAppendReply,
         OnPropose, OnAppendFailed, A0, A1, A2, A3, B0, B1, C0,
         IsRunUnder, Shows, Taped, ActsOn;
    var s, r := Scene(A0(), B0(), C0(), {}, {}), Unchanged(A0());
    run := start;
    Timers(A0(), ElectionTimeout);
    StandA();
    r := OnElectionTimeout(A0());
    run, s := Act(RULES, run, s, "a", ElectionTimeout, r, {Wire("a", "b", PreVoteRequest(1, 0, 0))}, {});
    Handlers(B0(), "a", PreVoteRequest(1, 0, 0));
    VoteB();
    r := OnPreVoteRequest(B0(), "a", PreVoteRequest(1, 0, 0));
    run, s := Take(RULES, run, s, "a", "b", PreVoteRequest(1, 0, 0), r, {Wire("b", "a", PreVoteReply(1, 0, true))}, {});
    Handlers(A1(), "b", PreVoteReply(1, 0, true));
    CampaignA();
    r := OnPreVoteReply(A1(), "b", PreVoteReply(1, 0, true));
    run, s := Take(RULES, run, s, "b", "a", PreVoteReply(1, 0, true), r, {Wire("a", "b", VoteRequest(1, 0, 0))}, {});
    Handlers(B0(), "a", VoteRequest(1, 0, 0));
    VoteB();
    r := OnVoteRequest(B0(), "a", VoteRequest(1, 0, 0));
    run, s := Take(RULES, run, s, "a", "b", VoteRequest(1, 0, 0), r, {Wire("b", "a", VoteReply(1, true))}, {});
    Handlers(A2(), "b", VoteReply(1, true));
    LeadA();
    r := OnVoteReply(A2(), "b", VoteReply(1, true));
    run, s := Take(RULES, run, s, "b", "a", VoteReply(1, true), r, {Wire("a", "b", Probe())}, {});
    Fewer(RULES, run, s, Scene(A3(), B1(), C0(), {Wire("a", "b", Probe())}, {}));
  }

  /** It stores two large entries of which b gets the first. */
  lemma Replicate(start: seq<Cluster>) returns (run: seq<Cluster>)
    requires Playing(RULES, start, Scene(A3(), B1(), C0(), {Wire("a", "b", Probe())}, {}))
    ensures Playing(RULES, run, Scene(A6(), B3(), C0(), {Wire("a", "b", Probe())}, {}))
  {
    hide Step, OnReceive, OnElectionTimeout, OnPreVoteRequest, OnPreVoteReply, OnVoteRequest, OnVoteReply, OnAppendRequest, OnAppendReply,
         OnPropose, OnAppendFailed, A0, A3, A5, A6, B1, B2, B3, C0,
         IsRunUnder, Shows, Taped, ActsOn;
    var s, r := Scene(A3(), B1(), C0(), {Wire("a", "b", Probe())}, {}), Unchanged(A0());
    run := start;
    Timers(A3(), ProposeSet(1, NO_SESSION, 1, [], Large()));
    ProposeA();
    r := OnPropose(A3(), ProposeSet(1, NO_SESSION, 1, [], Large()));
    run, s := Act(RULES, run, s, "a", ProposeSet(1, NO_SESSION, 1, [], Large()), r, {}, {});
    Timers(A3().(log := Shared()), ProposeSet(2, NO_SESSION, 1, [], Large()));
    ProposeA();
    r := OnPropose(A3().(log := Shared()), ProposeSet(2, NO_SESSION, 1, [], Large()));
    run, s := Act(RULES, run, s, "a", ProposeSet(2, NO_SESSION, 1, [], Large()), r, {}, {});
    Handlers(B1(), "a", Probe());
    ProbeB();
    r := OnAppendRequest(B1(), "a", Probe());
    run, s := Take(RULES, run, s, "a", "b", Probe(), r, {Wire("b", "a", Missing())}, {});
    Handlers(A5(), "b", Missing());
    FillA();
    r := OnAppendReply(A5(), "b", Missing());
    run, s := Take(RULES, run, s, "b", "a", Missing(), r, {Wire("a", "b", Filling())}, {});
    Handlers(B2(), "a", Filling());
    FillB();
    r := OnAppendRequest(B2(), "a", Filling());
    run, s := Take(RULES, run, s, "a", "b", Filling(), r, {}, {});
    Fewer(RULES, run, s, Scene(A6(), B3(), C0(), {Wire("a", "b", Probe())}, {}));
  }

  /** Node b leads Term 2 with the vote of c. */
  lemma SecondTerm(start: seq<Cluster>) returns (run: seq<Cluster>)
    requires Playing(RULES, start, Scene(A6(), B3(), C0(), {Wire("a", "b", Probe())}, {}))
    ensures Playing(RULES, run, Scene(A6(), B7(), C1(), {Wire("a", "b", Probe()), Wire("b", "a", VoteRequest(2, 2, 1))}, {}))
  {
    hide Step, OnReceive, OnElectionTimeout, OnPreVoteRequest, OnPreVoteReply, OnVoteRequest, OnVoteReply, OnAppendRequest, OnAppendReply,
         OnPropose, OnAppendFailed, A0, A6, B3, B4, B5, B6, B7, C0, C1,
         IsRunUnder, Shows, Taped, ActsOn;
    var s, r := Scene(A6(), B3(), C0(), {Wire("a", "b", Probe())}, {}), Unchanged(A0());
    run := start;
    Timers(B3(), ElectionTimeout);
    StandB();
    r := OnElectionTimeout(B3());
    run, s := Act(RULES, run, s, "b", ElectionTimeout, r, {Wire("b", "c", PreVoteRequest(2, 2, 1))}, {});
    Handlers(C0(), "b", PreVoteRequest(2, 2, 1));
    VoteC();
    r := OnPreVoteRequest(C0(), "b", PreVoteRequest(2, 2, 1));
    run, s := Take(RULES, run, s, "b", "c", PreVoteRequest(2, 2, 1), r, {Wire("c", "b", PreVoteReply(2, 0, true))}, {});
    Handlers(B4(), "c", PreVoteReply(2, 0, true));
    CampaignB();
    r := OnPreVoteReply(B4(), "c", PreVoteReply(2, 0, true));
    run, s := Take(RULES, run, s, "c", "b", PreVoteReply(2, 0, true), r, {Wire("b", "a", VoteRequest(2, 2, 1)), Wire("b", "c", VoteRequest(2, 2, 1))}, {});
    Handlers(C0(), "b", VoteRequest(2, 2, 1));
    VoteC();
    r := OnVoteRequest(C0(), "b", VoteRequest(2, 2, 1));
    run, s := Take(RULES, run, s, "b", "c", VoteRequest(2, 2, 1), r, {Wire("c", "b", VoteReply(2, true))}, {});
    Handlers(B5(), "c", VoteReply(2, true));
    LeadB();
    r := OnVoteReply(B5(), "c", VoteReply(2, true));
    run, s := Take(RULES, run, s, "c", "b", VoteReply(2, true), r, {}, {});
    Timers(B6(), ProposeDelete(1, NO_SESSION, 1, []));
    ProposeB();
    r := OnPropose(B6(), ProposeDelete(1, NO_SESSION, 1, []));
    run, s := Act(RULES, run, s, "b", ProposeDelete(1, NO_SESSION, 1, []), r, {}, {});
    Fewer(RULES, run, s, Scene(A6(), B7(), C1(), {Wire("a", "b", Probe()), Wire("b", "a", VoteRequest(2, 2, 1))}, {}));
  }

  /** Node a leads Term 3 with the vote of c. */
  lemma ThirdCandidate(start: seq<Cluster>) returns (run: seq<Cluster>)
    requires Playing(RULES, start, Scene(A6(), B7(), C1(), {Wire("a", "b", Probe()), Wire("b", "a", VoteRequest(2, 2, 1))}, {}))
    ensures Playing(RULES, run, Scene(A8(), B7(), C1(), {Wire("a", "b", Probe()), Wire("c", "a", PreVoteReply(3, 2, true))}, {}))
  {
    hide Step, OnReceive, OnElectionTimeout, OnPreVoteRequest, OnPreVoteReply, OnVoteRequest, OnVoteReply, OnAppendRequest, OnAppendReply,
         OnPropose, OnAppendFailed, A0, A6, A7, A8, B7, C1,
         IsRunUnder, Shows, Taped, ActsOn;
    var s, r := Scene(A6(), B7(), C1(), {Wire("a", "b", Probe()), Wire("b", "a", VoteRequest(2, 2, 1))}, {}), Unchanged(A0());
    run := start;
    Handlers(A6(), "b", VoteRequest(2, 2, 1));
    RefuseA();
    r := OnVoteRequest(A6(), "b", VoteRequest(2, 2, 1));
    run, s := Take(RULES, run, s, "b", "a", VoteRequest(2, 2, 1), r, {}, {});
    Timers(A7(), ElectionTimeout);
    StandAgain();
    r := OnElectionTimeout(A7());
    run, s := Act(RULES, run, s, "a", ElectionTimeout, r, {Wire("a", "c", PreVoteRequest(3, 3, 1))}, {});
    Handlers(C1(), "a", PreVoteRequest(3, 3, 1));
    VoteAgain();
    r := OnPreVoteRequest(C1(), "a", PreVoteRequest(3, 3, 1));
    run, s := Take(RULES, run, s, "a", "c", PreVoteRequest(3, 3, 1), r, {Wire("c", "a", PreVoteReply(3, 2, true))}, {});
    Fewer(RULES, run, s, Scene(A8(), B7(), C1(), {Wire("a", "b", Probe()), Wire("c", "a", PreVoteReply(3, 2, true))}, {}));
  }

  lemma ThirdOffice(start: seq<Cluster>) returns (run: seq<Cluster>)
    requires Playing(RULES, start, Scene(A8(), B7(), C1(), {Wire("a", "b", Probe()), Wire("c", "a", PreVoteReply(3, 2, true))}, {}))
    ensures Playing(RULES, run, Scene(A10(), B8(), C2(), {Wire("a", "b", Probe())}, {}))
  {
    hide Step, OnReceive, OnElectionTimeout, OnPreVoteRequest, OnPreVoteReply, OnVoteRequest, OnVoteReply, OnAppendRequest, OnAppendReply,
         OnPropose, OnAppendFailed, A0, A8, A9, A10, B7, B8, C1, C2,
         IsRunUnder, Shows, Taped, ActsOn;
    var s, r := Scene(A8(), B7(), C1(), {Wire("a", "b", Probe()), Wire("c", "a", PreVoteReply(3, 2, true))}, {}), Unchanged(A0());
    run := start;
    Handlers(A8(), "c", PreVoteReply(3, 2, true));
    CampaignAgain();
    r := OnPreVoteReply(A8(), "c", PreVoteReply(3, 2, true));
    run, s := Take(RULES, run, s, "c", "a", PreVoteReply(3, 2, true), r, {Wire("a", "b", VoteRequest(3, 3, 1)), Wire("a", "c", VoteRequest(3, 3, 1))}, {});
    Handlers(C1(), "a", VoteRequest(3, 3, 1));
    VoteAgain();
    r := OnVoteRequest(C1(), "a", VoteRequest(3, 3, 1));
    run, s := Take(RULES, run, s, "a", "c", VoteRequest(3, 3, 1), r, {Wire("c", "a", VoteReply(3, true))}, {});
    Handlers(A9(), "c", VoteReply(3, true));
    LeadAgain();
    r := OnVoteReply(A9(), "c", VoteReply(3, true));
    run, s := Take(RULES, run, s, "c", "a", VoteReply(3, true), r, {}, {});
    Handlers(B7(), "a", VoteRequest(3, 3, 1));
    RefuseB();
    r := OnVoteRequest(B7(), "a", VoteRequest(3, 3, 1));
    run, s := Take(RULES, run, s, "a", "b", VoteRequest(3, 3, 1), r, {}, {});
    Fewer(RULES, run, s, Scene(A10(), B8(), C2(), {Wire("a", "b", Probe())}, {}));
  }

  /** The probe of Term 1 reaches b in Term 3, its rejection reaches a, and a commits. */
  lemma WrongCommit(start: seq<Cluster>) returns (run: seq<Cluster>)
    requires Playing(RULES, start, Scene(A10(), B8(), C2(), {Wire("a", "b", Probe())}, {}))
    ensures Playing(RULES, run, Scene(A13(), B9(), C2(), {Wire("b", "a", Stale())}, {Seen("a", ApplyEntry(LargeAt(3)))}))
  {
    hide Step, OnReceive, OnElectionTimeout, OnPreVoteRequest, OnPreVoteReply, OnVoteRequest, OnVoteReply, OnAppendRequest, OnAppendReply,
         OnPropose, OnAppendFailed, A0, A10, A11, A12, A13, B8, B9, C2,
         IsRunUnder, Shows, Taped, ActsOn;
    var s, r := Scene(A10(), B8(), C2(), {Wire("a", "b", Probe())}, {}), Unchanged(A0());
    run := start;
    Handlers(B8(), "a", Probe());
    RejectProbe();
    r := OnAppendRequest(B8(), "a", Probe());
    run, s := Take(RULES, run, s, "a", "b", Probe(), r, {Wire("b", "a", Stale())}, {});
    Timers(A10(), AppendFailed("b", 4));
    GiveUp();
    r := OnAppendFailed(A10(), "b", 4);
    run, s := Act(RULES, run, s, "a", AppendFailed("b", 4), r, {}, {});
    Handlers(A11(), "b", Stale());
    FallBackA();
    r := OnAppendReply(A11(), "b", Stale());
    run, s := Take(RULES, run, s, "b", "a", Stale(), r, {Wire("a", "b", Batch(6, 0))}, {});
    Handlers(B8(), "a", Batch(6, 0));
    AckAll();
    r := OnAppendRequest(B8(), "a", Batch(6, 0));
    run, s := Take(RULES, run, s, "a", "b", Batch(6, 0), r, {Wire("b", "a", WrongAck())}, {});
    Handlers(A12(), "b", WrongAck());
    CommitA();
    r := OnAppendReply(A12(), "b", WrongAck());
    run, s := Take(RULES, run, s, "b", "a", WrongAck(), r, {}, {Seen("a", ApplyEntry(LargeAt(3)))});
    Fewer(RULES, run, s, Scene(A13(), B9(), C2(), {Wire("b", "a", Stale())}, {Seen("a", ApplyEntry(LargeAt(3)))}));
  }

  /** The same rejection arrives once more, and b applies its own entries. */
  lemma WrongApply(start: seq<Cluster>) returns (run: seq<Cluster>, s: Scene)
    requires Playing(RULES, start, Scene(A13(), B9(), C2(), {Wire("b", "a", Stale())}, {Seen("a", ApplyEntry(LargeAt(3)))}))
    ensures Playing(RULES, run, s) && Seen("a", ApplyEntry(LargeAt(3))) in s.shown && Seen("b", ApplyEntry(NoOpAt(3, 2))) in s.shown
  {
    hide Step, OnReceive, OnElectionTimeout, OnPreVoteRequest, OnPreVoteReply, OnVoteRequest, OnVoteReply, OnAppendRequest, OnAppendReply,
         OnPropose, OnAppendFailed, IsRunUnder, Shows, Taped, ActsOn;
    var r := Unchanged(A0());
    run, s := start, Scene(A13(), B9(), C2(), {Wire("b", "a", Stale())}, {Seen("a", ApplyEntry(LargeAt(3)))});
    Timers(A13(), AppendFailed("b", 7));
    GiveUp();
    r := OnAppendFailed(A13(), "b", 7);
    run, s := Act(RULES, run, s, "a", AppendFailed("b", 7), r, {}, {});
    Handlers(A14(), "b", Stale());
    FallBackAgain();
    r := OnAppendReply(A14(), "b", Stale());
    run, s := Take(RULES, run, s, "b", "a", Stale(), r, {Wire("a", "b", Batch(8, 4))}, {});
    Handlers(B9(), "a", Batch(8, 4));
    ApplyB();
    r := OnAppendRequest(B9(), "a", Batch(8, 4));
    run, s := Take(RULES, run, s, "a", "b", Batch(8, 4), r, {}, {Seen("b", ApplyEntry(NoOpAt(3, 2)))});
  }

  // ------------------------------------------------------------------ the verdict

  /** Without the exclusion of that delivery state-machine safety is false of the
      code, however faithful restarts are. */
  lemma SafetyNeedsTheGuard()
    ensures exists run :: IsRunUnder(Rules(false, true), run) && Disagree(run[|run| - 1])
  {
    hide IsRunUnder, Shows;
    var run := Starts(RULES);
    run := FirstTerm(run);
    run := Replicate(run);
    run := SecondTerm(run);
    run := ThirdCandidate(run);
    run := ThirdOffice(run);
    run := WrongCommit(run);
    var s;
    run, s := WrongApply(run);
    ShownIsSeen(RULES, run, s);
    var x, y := Seen("a", ApplyEntry(LargeAt(3))), Seen("b", ApplyEntry(NoOpAt(3, 2)));
    assert x in run[|run| - 1].seen && y in run[|run| - 1].seen;
    assert x.action.entry.index == y.action.entry.index && x.action.entry.kind != y.action.entry.kind;
    assert Disagree(run[|run| - 1]);
  }
}
