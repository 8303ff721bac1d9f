/** Steps of one Node leave what is known about every other Node and about
    every packet true. */
module Stability {
  import opened Types
  import opened Node
  import opened Protocol
  import opened ProtocolProofs
  import opened Coupling

  /** The history grew by what Node `id` did, and no promise about any Node was broken. */
  ghost predicate Evolves(s: State, s': State, id: NodeId) {
    Grows(s, s') && Frame(s, s', id) && Promises(s, s')
  }

  /** Only Node `id` acted. */
  ghost predicate Frame(s: State, s': State, id: NodeId) {
    && s'.term.Keys == s.term.Keys && s'.log.Keys == s.log.Keys
    && (forall f :: f in s.term && f != id ==> s'.term[f] == s.term[f])
    && (forall f :: f in s.log && f != id ==> s'.log[f] == s.log[f])
    && (forall b :: b in s'.voted && b.node != id ==> b in s.voted)
    && (forall t :: t in s'.tlog && (t !in s.tlog || s'.tlog[t] != s.tlog[t]) ==> t in s'.ldr && s'.ldr[t] == id)
    && (forall v, t :: v != id ==> Acked(s', v, t) == Acked(s, v, t))
    && (forall p :: p in s'.commits && p !in s.commits ==> p.term in s'.ldr && s'.ldr[p.term] == id)
  }

  /** Positions promised about a Node stay promised. */
  ghost predicate Promises(s: State, s': State) {
    && (forall f, t, m: nat {:trigger Above(s', f, t, m)} :: Above(s, f, t, m) ==> Above(s', f, t, m))
    && (forall f, t, h {:trigger HintOk(s', f, t, h)} :: HintOk(s, f, t, h) ==> HintOk(s', f, t, h))
    && (forall f, t, k: nat {:trigger InStepTo(s', f, t, k)} :: InStepTo(s, f, t, k) ==> InStepTo(s', f, t, k))
  }

  lemma EvolvesTrans(s: State, s1: State, s2: State, id: NodeId)
    requires Evolves(s, s1, id) && Evolves(s1, s2, id)
    ensures Evolves(s, s2, id)
  {
    GrowsTrans(s, s1, s2);
    FrameTrans(s, s1, s2, id);
    PromisesTrans(s, s1, s2);
  }

  lemma GrowsTrans(s: State, s1: State, s2: State)
    requires Grows(s, s1) && Grows(s1, s2)
    ensures Grows(s, s2)
  {
    forall v: NodeId, t: nat ensures Acked(s, v, t) <= Acked(s2, v, t) {
      assert Acked(s, v, t) <= Acked(s1, v, t) <= Acked(s2, v, t);
    }
    forall v: NodeId, t: nat | v in s.term && t < s.term[v] ensures Acked(s2, v, t) == Acked(s, v, t) {
      assert Acked(s1, v, t) == Acked(s, v, t);
    }
  }

  lemma FrameTrans(s: State, s1: State, s2: State, id: NodeId)
    requires Grows(s, s1) && Grows(s1, s2) && Frame(s, s1, id) && Frame(s1, s2, id)
    ensures Frame(s, s2, id)
  {
    forall v: NodeId, t: nat | v != id ensures Acked(s2, v, t) == Acked(s, v, t) {
      assert Acked(s1, v, t) == Acked(s, v, t);
    }
  }

  lemma PromisesTrans(s: State, s1: State, s2: State)
    requires Promises(s, s1) && Promises(s1, s2)
    ensures Promises(s, s2)
  {
    forall f: NodeId, t: nat, m: nat | Above(s, f, t, m) ensures Above(s2, f, t, m) { assert Above(s1, f, t, m); }
    forall f: NodeId, t: nat, h | HintOk(s, f, t, h) ensures HintOk(s2, f, t, h) { assert HintOk(s1, f, t, h); }
    forall f: NodeId, t: nat, k: nat | InStepTo(s, f, t, k) ensures InStepTo(s2, f, t, k) { assert InStepTo(s1, f, t, k); }
  }

  // -------------------------------------------------- promises about positions

  /** A log that shares more than its Leader has written is impossible. */
  lemma SharesBounded(s: State, f: NodeId, t: nat, extended: seq<Entry>, m: nat)
    requires Inv(s) && f in s.members && t in s.tlog
    requires s.tlog[t] <= extended && Shares(s.log[f], extended, m)
    requires forall i :: |s.tlog[t]| <= i < |extended| ==> extended[i].term == t
    ensures Shares(s.log[f], s.tlog[t], m)
  {
    if m > 0 {
      assert NodeLogOk(s, f) && AnchoredAt(s, s.log[f], m - 1);
      assert s.log[f][m - 1] == s.log[f][..m][m - 1] == extended[..m][m - 1] == extended[m - 1];
    }
    assert extended[..m] == s.tlog[t][..m];
  }

  /** What an unmoved Node promised stays true while its Leader's log grows. */
  lemma UnmovedKept(s: State, s': State, f: NodeId)
    requires Inv(s) && Grows(s, s') && f in s.members
    requires f in s'.term && f in s'.log && s'.term[f] == s.term[f] && s'.log[f] == s.log[f]
    requires forall t, i :: t in s.tlog && |s.tlog[t]| <= i < |s'.tlog[t]| ==> s'.tlog[t][i].term == t
    ensures forall t, m: nat {:trigger Above(s', f, t, m)} :: Above(s, f, t, m) ==> Above(s', f, t, m)
    ensures forall t, h {:trigger HintOk(s', f, t, h)} :: HintOk(s, f, t, h) ==> HintOk(s', f, t, h)
    ensures forall t, k: nat {:trigger InStepTo(s', f, t, k)} :: InStepTo(s, f, t, k) ==> InStepTo(s', f, t, k)
  {
    forall t: nat, m: nat | Above(s, f, t, m) ensures Above(s', f, t, m) {
      if Shares(s'.log[f], s'.tlog[t], m) { SharesBounded(s, f, t, s'.tlog[t], m); }
    }
    forall t: nat, h: Hint | HintOk(s, f, t, h) ensures HintOk(s', f, t, h) {
      if s.term[f] == t && !Synced(s, f, t) {
        forall n: nat | Shares(s'.log[f], s'.tlog[t], n) ensures HintAbove(s'.tlog[t], n, h) {
          SharesBounded(s, f, t, s'.tlog[t], n);
        }
      }
    }
  }

  /** A Node that moves to a later Term has left every earlier promise behind. */
  lemma RaisedKept(s: State, s': State, f: NodeId)
    requires Grows(s, s') && f in s.term && f in s'.term && f in s'.log && s.term[f] < s'.term[f]
    ensures forall t, m: nat {:trigger Above(s', f, t, m)} :: Above(s, f, t, m) ==> Above(s', f, t, m)
    ensures forall t, h {:trigger HintOk(s', f, t, h)} :: HintOk(s, f, t, h) ==> HintOk(s', f, t, h)
    ensures forall t, k: nat {:trigger InStepTo(s', f, t, k)} :: InStepTo(s, f, t, k) ==> InStepTo(s', f, t, k)
  {
  }

  /** A Node in step with its Leader keeps every promise. */
  lemma SyncedKept(s: State, s': State, f: NodeId, u: nat)
    requires Grows(s, s') && f in s.term && f in s'.term && s'.term[f] == s.term[f] == u && Synced(s', f, u)
    requires Synced(s, f, u) ==> |s.log[f]| <= |s'.log[f]|
    ensures forall t, m: nat {:trigger Above(s', f, t, m)} :: Above(s, f, t, m) ==> Above(s', f, t, m)
    ensures forall t, h {:trigger HintOk(s', f, t, h)} :: HintOk(s, f, t, h) ==> HintOk(s', f, t, h)
    ensures forall t, k: nat {:trigger InStepTo(s', f, t, k)} :: InStepTo(s, f, t, k) ==> InStepTo(s', f, t, k)
  {
  }

  // ------------------------------------------------------ the eight transitions

  /** Assemble Evolves from the promise of the acting Node. */
  lemma Assemble(s: State, s': State, id: NodeId)
    requires Inv(s) && Grows(s, s') && Frame(s, s', id)
    requires forall t, i :: t in s.tlog && |s.tlog[t]| <= i < |s'.tlog[t]| ==> s'.tlog[t][i].term == t
    requires forall t, m: nat {:trigger Above(s', id, t, m)} :: Above(s, id, t, m) ==> Above(s', id, t, m)
    requires forall t, h {:trigger HintOk(s', id, t, h)} :: HintOk(s, id, t, h) ==> HintOk(s', id, t, h)
    requires forall t, k: nat {:trigger InStepTo(s', id, t, k)} :: InStepTo(s, id, t, k) ==> InStepTo(s', id, t, k)
    ensures Evolves(s, s', id)
  {
    forall f: NodeId, t: nat, m: nat | Above(s, f, t, m) ensures Above(s', f, t, m) {
      if f != id { UnmovedKept(s, s', f); }
    }
    forall f: NodeId, t: nat, h: Hint | HintOk(s, f, t, h) ensures HintOk(s', f, t, h) {
      if f != id { UnmovedKept(s, s', f); }
    }
    forall f: NodeId, t: nat, k: nat | InStepTo(s, f, t, k) ensures InStepTo(s', f, t, k) {
      if f != id { UnmovedKept(s, s', f); }
    }
  }

  lemma RaiseTermEvolves(s: State, n: NodeId, t: nat)
    requires Inv(s) && CanRaiseTerm(s, n, t)
    ensures Inv(RaiseTerm(s, n, t)) && Evolves(s, RaiseTerm(s, n, t), n)
  {
    RaiseTermInv(s, n, t);
    RaisedKept(s, RaiseTerm(s, n, t), n);
    Assemble(s, RaiseTerm(s, n, t), n);
  }

  lemma StandEvolves(s: State, n: NodeId, t: nat)
    requires Inv(s) && CanStand(s, n, t)
    ensures Inv(Stand(s, n, t)) && Evolves(s, Stand(s, n, t), n)
  {
    StandInv(s, n, t);
    RaisedKept(s, Stand(s, n, t), n);
    Assemble(s, Stand(s, n, t), n);
  }

  lemma VoteEvolves(s: State, v: NodeId, c: NodeId, t: nat)
    requires Inv(s) && CanVote(s, v, c, t)
    ensures Inv(Vote(s, v, c, t)) && Evolves(s, Vote(s, v, c, t), v)
  {
    VoteInv(s, v, c, t);
    UnmovedKept(s, Vote(s, v, c, t), v);
    Assemble(s, Vote(s, v, c, t), v);
  }

  lemma ElectEvolves(s: State, c: NodeId, t: nat, q: set<NodeId>, e: Entry)
    requires Inv(s) && CanElect(s, c, t, q, e)
    ensures Inv(Elect(s, c, t, q, e)) && Evolves(s, Elect(s, c, t, q, e), c)
  {
    hide Above, HintOk, InStepTo, Promises;
    ElectInv(s, c, t, q, e);
    SyncedKept(s, Elect(s, c, t, q, e), c, t);
    Assemble(s, Elect(s, c, t, q, e), c);
  }

  lemma ExtendEvolves(s: State, c: NodeId, t: nat, e: Entry)
    requires Inv(s) && CanExtend(s, c, t, e)
    ensures Inv(Extend(s, c, t, e)) && Evolves(s, Extend(s, c, t, e), c)
  {
    hide Inv, Above, HintOk, InStepTo, Promises;
    ExtendInv(s, c, t, e);
    SyncedKept(s, Extend(s, c, t, e), c, t);
    Assemble(s, Extend(s, c, t, e), c);
  }

  lemma AcceptEvolves(s: State, v: NodeId, t: nat, j: nat)
    requires Inv(s) && CanAccept(s, v, t, j)
    ensures Inv(Accept(s, v, t, j)) && Evolves(s, Accept(s, v, t, j), v)
  {
    AcceptInv(s, v, t, j);
    assert Synced(s, v, t) ==> |s.log[v]| <= j;
    SyncedKept(s, Accept(s, v, t, j), v, t);
    Assemble(s, Accept(s, v, t, j), v);
  }

  lemma AckEvolves(s: State, v: NodeId, t: nat, k: nat)
    requires Inv(s) && CanAck(s, v, t, k)
    ensures Inv(Ack(s, v, t, k)) && Evolves(s, Ack(s, v, t, k), v)
  {
    AckInv(s, v, t, k);
    UnmovedKept(s, Ack(s, v, t, k), v);
    Assemble(s, Ack(s, v, t, k), v);
  }

  lemma CommitEvolves(s: State, id: NodeId, t: nat, k: nat, q: set<NodeId>)
    requires Inv(s) && CanCommit(s, t, k, q) && id in s.members && t in s.ldr && s.ldr[t] == id
    ensures Inv(Commit(s, t, k)) && Evolves(s, Commit(s, t, k), id)
  {
    CommitInv(s, t, k, q);
    UnmovedKept(s, Commit(s, t, k), id);
    Assemble(s, Commit(s, t, k), id);
  }
}
