/** Reference counts of nodes, and taking and giving back references along a list of nodes. */
module References {
  import opened Memory

  type Node = nat
  type Counts = Node -> int

  /** Counts refs and, on top, one for each occurrence of a node in q. */
  ghost predicate Plus(refs: Counts, q: seq<Node>, refs': Counts) {
    forall n: Node :: refs'(n) == refs(n) + multiset(q)[n]
  }

  /** One inc_ref for each node of q. */
  function AddRefs(refs: Counts, q: seq<Node>): Counts {
    if q == [] then refs
    else
      var before := AddRefs(refs, q[..|q| - 1]);
      Put(before, q[|q| - 1], before(q[|q| - 1]) + 1)
  }

  lemma {:induction false} AddRefsPlus(refs: Counts, q: seq<Node>)
    ensures Plus(refs, q, AddRefs(refs, q))
  {
    if q != [] {
      AddRefsPlus(refs, q[..|q| - 1]);
      assert q == q[..|q| - 1] + [q[|q| - 1]];
    }
  }

  /** One release for each node of q, from the first. */
  function Release(refs: Counts, q: seq<Node>): Counts {
    if q == [] then refs else Release(Put(refs, q[0], refs(q[0]) - 1), q[1..])
  }

  /** Releasing what was taken gives every count back. */
  lemma {:induction false} ReleaseUndoes(refs: Counts, q: seq<Node>, taken: Counts)
    requires Plus(refs, q, taken)
    ensures forall n: Node :: Release(taken, q)(n) == refs(n)
  {
    if q != [] {
      var first := Put(taken, q[0], taken(q[0]) - 1);
      assert q == [q[0]] + q[1..];
      assert Plus(refs, q[1..], first);
      ReleaseUndoes(refs, q[1..], first);
    }
  }
}
