/** Quick-find disjoint sets over the labels 0 .. |ids| - 1, as used by the
    percolation engine: every label carries a component id, `Find` reads it in
    constant time and `Union` relabels a whole component in one pass. The
    contracts of `Union` and `Singletons` speak of the partition the ids
    induce (`Connected`), not of the id values themselves. */
module QuickFind {

  /** The component id of label p. */
  function Find(ids: seq<int>, p: int): (id: int)
    requires 0 <= p < |ids|
    ensures id in ids
  {
    ids[p]
  }

  /** Labels p and q are in the same component. */
  predicate Connected(ids: seq<int>, p: int, q: int): (r: bool)
    requires 0 <= p < |ids| && 0 <= q < |ids|
    ensures p == q ==> r
  {
    Find(ids, p) == Find(ids, q)
  }

  /** Sharing a component is an equivalence on the labels, whatever the ids. */
  lemma ConnectedIsEquivalence(ids: seq<int>)
    ensures forall p :: 0 <= p < |ids| ==> Connected(ids, p, p)
    ensures forall p, q :: 0 <= p < |ids| && 0 <= q < |ids| ==> (Connected(ids, p, q) <==> Connected(ids, q, p))
    ensures forall p, q, r :: 0 <= p < |ids| && 0 <= q < |ids| && 0 <= r < |ids| ==>
      Connected(ids, p, q) && Connected(ids, q, r) ==> Connected(ids, p, r)
  {
  }

  /** Two id sequences over the same labels that induce the same partition. */
  ghost predicate SamePartition(a: seq<int>, b: seq<int>)
  {
    && |a| == |b|
    && forall x, y :: 0 <= x < |a| && 0 <= y < |a| ==> (Connected(a, x, y) <==> Connected(b, x, y))
  }

  /** A structure over m labels, each in a component of its own. */
  function Singletons(m: nat): (ids: seq<int>)
    ensures |ids| == m
    ensures forall p, q :: 0 <= p < m && 0 <= q < m ==> (Connected(ids, p, q) <==> p == q)
  {
    seq(m, i => i)
  }

  /** Merges the components of p and q: every label that shared p's id takes q's.
      The components of p and q become one and no other pair is joined. */
  function Union(ids: seq<int>, p: int, q: int): (r: seq<int>)
    requires 0 <= p < |ids| && 0 <= q < |ids|
    ensures |r| == |ids|
    ensures forall x, y :: 0 <= x < |ids| && 0 <= y < |ids| ==>
      (Connected(r, x, y) <==>
         || Connected(ids, x, y)
         || (Connected(ids, x, p) && Connected(ids, y, q))
         || (Connected(ids, x, q) && Connected(ids, y, p)))
  {
    var pid := ids[p];
    var qid := ids[q];
    if pid == qid then ids
    else seq(|ids|, i requires 0 <= i < |ids| => if ids[i] == pid then qid else ids[i])
  }

  /** The relabelling pass of quick-find written as the in-place loop it is:
      one sweep over all labels, replacing p's id by q's. */
  method UnionInPlace(ids: seq<int>, p: int, q: int) returns (r: seq<int>)
    requires 0 <= p < |ids| && 0 <= q < |ids|
    ensures r == Union(ids, p, q)
  {
    var pid := ids[p];
    var qid := ids[q];
    if pid == qid {
      return ids;
    }
    r := ids;
    for i := 0 to |ids|
      invariant |r| == |ids|
      invariant forall k :: 0 <= k < i ==> r[k] == (if ids[k] == pid then qid else ids[k])
      invariant forall k :: i <= k < |ids| ==> r[k] == ids[k]
    {
      if r[i] == pid {
        r := r[i := qid];
      }
    }
  }
}
