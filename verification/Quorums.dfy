/** Majorities of a fixed member set. */
module Quorums {
  import opened Types

  predicate IsQuorum(members: set<NodeId>, q: set<NodeId>) {
    q <= members && |members| < 2 * |q|
  }

  /** Any two majorities of one member set have a Node in common. */
  lemma QuorumsIntersect(members: set<NodeId>, a: set<NodeId>, b: set<NodeId>) returns (common: NodeId)
    requires IsQuorum(members, a) && IsQuorum(members, b)
    ensures common in a && common in b
  {
    if a * b == {} {
      forall v | v in a ensures v !in b {
        assert v in b ==> v in a * b;
      }
      assert |a + b| == |a| + |b|;
      SubsetSize(a + b, members);
      assert false;
    }
    common :| common in a * b;
  }

  lemma SubsetSize<T>(small: set<T>, large: set<T>)
    requires small <= large
    ensures |small| <= |large|
  {
    assert large == small + (large - small);
  }
}
