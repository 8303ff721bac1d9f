/** Why the safety theorems exclude one delivery. A run of three Nodes in which a
    Leader acts on the rejection of a request from its own earlier Term: it falls
    back to index 1, sends a batch that ends inside the shared prefix, takes the
    Follower's whole log for its own, commits on that, and two Nodes apply
    different entries at the same index. */
module StaleReplies {
  import opened Types
  import opened Messages
  import opened Node
  import opened Cluster
  import opened Stage

  // --------------------------------------------------------------------- the logs

  /** A value such that two of them exceed one request. */
  function Large(): (v: Bytes)
    ensures |v| == 600000
  {
    seq(600000, _ => 0)
  }

  function LargeAt(index: nat): Entry { Entry(index, 1, SetKey, NO_SESSION, 1, [], Large()) }

  /** What both hold, what the first Node holds in Term 3 and what the second holds. */
  function Shared(): seq<Entry> { [NoOpAt(1, 1), LargeAt(2)] }
  function Kept(): seq<Entry> { [NoOpAt(1, 1), LargeAt(2), LargeAt(3), NoOpAt(4, 3)] }
  function Rival(): seq<Entry> { [NoOpAt(1, 1), LargeAt(2), NoOpAt(3, 2), Entry(4, 2, DeleteKey, NO_SESSION, 1, [], [])] }

  /** From index 1 only the shared prefix fits one request. */
  lemma FirstBatch(log: seq<Entry>)
    requires |log| >= 3 && log[..2] == Shared() && log[2] == LargeAt(3)
    ensures log[..BatchLength(log, 0, 0)] == Shared()
  {
    assert log[0] == Shared()[0] && log[1] == Shared()[1];
    assert log[1..][0] == log[1] && log[1..][1..][0] == log[2];
    assert BatchLength(log[1..][1..], 2, 600128) == 0;
    assert BatchLength(log[1..], 1, 64) == 1;
  }

  lemma BackToOne(n: Node, m: Message)
    requires m.AppendReply? && m.conflictTerm == 0 && m.conflictIndex <= 1
    ensures NextIndexFromConflict(n, Hint(m.conflictTerm, m.conflictIndex)) == 1
  {
  }

  /** A rejection that sends the Leader back to index 1. */
  lemma FallsBack(n: Node, p: NodeId, q: NodeId, from: NodeId, m: Message)
    requires Plain(n, p, q) && n.base == 0 && n.role == Leader && from in n.peers && |n.log| >= 3 && n.log[..2] == Shared() && n.log[2] == LargeAt(3)
    requires m.AppendReply? && m.term == n.term && !m.success && m.conflictTerm == 0 && m.conflictIndex <= 1 && m.readId == 0
    requires Get(n.inFlight, from, InFlight(0, 0)).requestId in {0, m.requestId}
    requires LeaderCommit(Retrying(n, from, 1), |n.log|) == n.commit
    ensures var r := OnAppendReply(n, from, m);
            && r.node == n.(activePeers := n.activePeers + {from}, nextIndex := n.nextIndex[from := 1],
                            inFlight := (n.inFlight - {from})[from := InFlight(n.nextRequest + 1, n.commit)],
                            nextRequest := n.nextRequest + 1)
            && Send(from, AppendRequest(n.term, n.nextRequest + 1, 0, n.baseTerm, Shared(), n.commit, 0)) in r.actions
  {
    hide LeaderCommit, BatchLength, NoteReply, OnAppendReply, NextIndexFromConflict;
    BackToOne(n, m);
    FirstBatch(n.log);
    assert n.log[0..] == n.log;
    assert EntriesBatch(n, 1) == Shared();
    Retries(n, p, q, from, m, 1);
  }
}
