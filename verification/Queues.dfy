/** Queues as sequences: removal from the middle. The intrusive lists and the deques of the
    source are proved to implement these functions. */
module Queues {
  function Without<W>(q: seq<W>, i: nat): seq<W>
    requires i < |q|
  {
    q[..i] + q[i + 1..]
  }

  ghost predicate Distinct<W>(q: seq<W>) {
    forall i, j :: 0 <= i < j < |q| ==> q[i] != q[j]
  }

  function IndexOf<W(==)>(q: seq<W>, w: W): (i: nat)
    requires w in q
    ensures i < |q| && q[i] == w
  {
    if q[0] == w then 0 else 1 + IndexOf(q[1..], w)
  }

  /** Takes w out if it is there. */
  function Removed<W(==)>(q: seq<W>, w: W): seq<W> {
    if w in q then Without(q, IndexOf(q, w)) else q
  }

  /** Removing one element of a duplicate-free queue removes exactly that element. */
  lemma WithoutMembers<W>(q: seq<W>, i: nat)
    requires i < |q| && Distinct(q)
    ensures Distinct(Without(q, i))
    ensures forall w :: w in Without(q, i) <==> w in q && w != q[i]
  {
    var r := Without(q, i);
    forall w | w in q && w != q[i]
      ensures w in r
    {
      var k :| 0 <= k < |q| && q[k] == w;
      assert r[if k < i then k else k - 1] == w;
    }
  }
}
