/** What the parts of a handler say about Terms and votes, whatever the handler. */
module Speech {
  import opened Types
  import opened Messages
  import opened Node

  // -------------------------------------------- what Term an effect carries

  /** A message speaks for the Term its sender is in; a PreVoteRequest only asks. */
  predicate Speaks(m: Message, t: nat) {
    match m
    case PreVoteRequest(_, _, _) => true
    case PreVoteReply(_, current, _) => current == t
    case VoteRequest(term, _, _) => term == t
    case VoteReply(term, _) => term == t
    case AppendRequest(term, _, _, _, _, _, _) => term == t
    case AppendReply(term, _, _, _, _, _, _) => term == t
    case SnapshotRequest(term, _, _, _, _) => term == t
    case SnapshotReply(term, _, _, _, _, _) => term == t
  }

  predicate AllSpeak(actions: seq<Action>, t: nat) {
    forall a :: a in actions && a.Send? ==> Speaks(a.msg, t)
  }

  predicate AllSave(writes: seq<Write>, t: nat) {
    forall w :: w in writes && w.SaveHardState? ==> w.term == t
  }

  /** Everything the step emits and writes is for the Term it ends in. */
  predicate OneTerm(r: StepResult) {
    AllSpeak(r.actions, r.node.term) && AllSave(r.writes, r.node.term)
  }

  predicate SameSelf(n: Node, n': Node) {
    n'.id == n.id && n'.peers == n.peers && n'.term == n.term && n'.role == n.role && n'.preVotes == n.preVotes
  }

  predicate SameVote(n: Node, n': Node) { n'.votedFor == n.votedFor && n'.votes == n.votes }

  /** No vote is granted and nobody is elected. */
  predicate Neutral(a: Action) {
    !a.BecameLeader? && !(a.Send? && a.msg.VoteReply? && a.msg.granted)
  }

  predicate AllNeutral(actions: seq<Action>) {
    forall a :: a in actions ==> Neutral(a)
  }

  lemma {:induction false} BroadcastSpeaks(peers: seq<NodeId>, m: Message, t: nat)
    requires Speaks(m, t)
    ensures AllSpeak(Broadcast(peers, m), t)
    decreases |peers|
  {
    if peers != [] { BroadcastSpeaks(peers[1..], m, t); }
  }

  lemma SendToSpeaks(n: Node, peer: NodeId, readId: nat)
    ensures var r := SendTo(n, peer, readId); AllSpeak(r.actions, n.term) && AllNeutral(r.actions) && SameSelf(n, r.node) && SameVote(n, r.node)
  {
    hide EntriesBatch, TermAt;
  }

  lemma {:induction false} SendAllSpeaks(n: Node, peers: seq<NodeId>, readId: nat)
    ensures var r := SendAll(n, peers, readId); AllSpeak(r.actions, n.term) && AllNeutral(r.actions) && SameSelf(n, r.node) && SameVote(n, r.node)
    decreases |peers|
  {
    if peers != [] {
      var carried := if readId == 0 then PendingReadFor(n, peers[0]) else readId;
      SendToSpeaks(n, peers[0], carried);
      SendAllSpeaks(SendTo(n, peers[0], carried).node, peers[1..], readId);
    }
  }

  lemma {:induction false} CompleteReadsSpeaks(n: Node)
    ensures var r := CompleteReads(n); AllSpeak(r.actions, n.term) && AllNeutral(r.actions) && SameSelf(n, r.node) && SameVote(n, r.node)
    decreases |ReadyReads(n)|
  {
    var ready := ReadyReads(n);
    if ready != {} {
      var n' := n.(waiting := n.waiting - {Least(ready)});
      assert ReadyReads(n') == ready - {Least(ready)};
      CompleteReadsSpeaks(n');
    }
  }

  lemma AckReadSpeaks(n: Node, from: NodeId, readId: nat)
    ensures var r := AckRead(n, from, readId); AllSpeak(r.actions, n.term) && AllNeutral(r.actions) && SameSelf(n, r.node) && SameVote(n, r.node)
  {
    if readId != 0 && readId in n.waiting && !n.waiting[readId].confirmed {
      var acks := n.waiting[readId].acks + {from};
      CompleteReadsSpeaks(n.(waiting := n.waiting[readId := PendingRead(acks, n.commit, true)]));
    }
  }

  lemma {:induction false} ApplyThroughSpeaks(n: Node, index: nat)
    ensures var r := ApplyThrough(n, index); AllSpeak(r.actions, n.term) && AllNeutral(r.actions) && SameSelf(n, r.node) && SameVote(n, r.node)
    decreases index - n.lastApplied
  {
    if index <= n.lastApplied || !(n.base <= n.lastApplied < LastIndex(n)) {
      CompleteReadsSpeaks(n);
    } else {
      ApplyThroughSpeaks(ApplyOne(n).node, index);
    }
  }

  lemma NoteReplySame(n: Node, from: NodeId, m: Message)
    requires m.AppendReply?
    ensures SameSelf(n, NoteReply(n, from, m)) && SameVote(n, NoteReply(n, from, m))
  {
    hide NextIndexFromConflict, Max, Get;
  }
}
