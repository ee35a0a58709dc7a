/** A reclaim cycle and the destruction of a hazard pointers instance (src/clds_hazard_pointers.c), run by one thread
    while no other runs: what is reclaimed, what is kept, and in which order. Threads are indexed in the order of
    registration, so the thread list runs from the last index down to 0. */
module HazardReclaim {
  import opened StHashSet

  type Node = Key

  /** Allocation number k of a call succeeds. */
  type Memory = nat -> bool

  /** The nodes of q that are in h, and those that are not, in order. */
  function Kept(q: seq<Node>, h: set<Node>): seq<Node> {
    if q == [] then [] else (if q[0] in h then [q[0]] else []) + Kept(q[1..], h)
  }

  function Dropped(q: seq<Node>, h: set<Node>): seq<Node> {
    if q == [] then [] else (if q[0] in h then [] else [q[0]]) + Dropped(q[1..], h)
  }

  function Reversed(q: seq<Node>): seq<Node> { if q == [] then [] else Reversed(q[1..]) + [q[0]] }

  /** The hazards in a list of node fields, and how many there are. */
  function NonNull(q: seq<Node>): set<Node> { set n | n in q && n != NULL }

  function Stored(q: seq<Node>): nat { if q == [] then 0 else (if q[0] == NULL then 0 else 1) + Stored(q[1..]) }

  /** The hazards that the first n threads have set: a scan passes over the others. */
  function HazardSet(active: seq<bool>, hazards: seq<seq<Node>>, n: nat): set<Node>
    requires n <= |active| == |hazards|
  {
    if n == 0 then {} else (if active[n - 1] then NonNull(hazards[n - 1]) else {}) + HazardSet(active, hazards, n - 1)
  }

  /** How often a scan of them stores one. */
  function HazardCount(active: seq<bool>, hazards: seq<seq<Node>>, n: nat): nat
    requires n <= |active| == |hazards|
  {
    if n == 0 then 0 else (if active[n - 1] then Stored(hazards[n - 1]) else 0) + HazardCount(active, hazards, n - 1)
  }

  /** All entries of a number of reclaim lists. */
  function Total(lists: seq<seq<Node>>): multiset<Node> {
    if lists == [] then multiset{} else multiset(lists[0]) + Total(lists[1..])
  }

  // ---------- the two halves of a list ----------

  lemma {:induction false} KeptAndDropped(q: seq<Node>, h: set<Node>)
    ensures multiset(Kept(q, h)) + multiset(Dropped(q, h)) == multiset(q)
    ensures forall n :: n in Kept(q, h) ==> n in h
    ensures forall n :: n in Dropped(q, h) ==> n !in h
  {
    if q != [] {
      KeptAndDropped(q[1..], h);
      assert q == [q[0]] + q[1..];
    }
  }

  lemma KeptIsPart(q: seq<Node>, h: set<Node>, n: Node)
    ensures n in Kept(q, h) ==> n in q
  {
    KeptAndDropped(q, h);
    assert n in Kept(q, h) ==> n in multiset(Kept(q, h)) && n in multiset(q);
  }

  lemma {:induction false} KeptAppend(p: seq<Node>, n: Node, h: set<Node>)
    ensures Kept(p + [n], h) == if n in h then Kept(p, h) + [n] else Kept(p, h)
  {
    if p == [] {
      assert p + [n] == [n] && [n][1..] == [];
    } else {
      var q := p + [n];
      assert q[1..] == p[1..] + [n] && q[0] == p[0];
      KeptAppend(p[1..], n, h);
      if p[0] in h { assert Kept(q, h) == [p[0]] + Kept(q[1..], h); } else { assert Kept(q, h) == Kept(q[1..], h); }
    }
  }

  lemma {:induction false} DroppedAppend(p: seq<Node>, n: Node, h: set<Node>)
    ensures Dropped(p + [n], h) == if n in h then Dropped(p, h) else Dropped(p, h) + [n]
  {
    if p == [] {
      assert p + [n] == [n];
    } else {
      assert (p + [n])[1..] == p[1..] + [n];
      DroppedAppend(p[1..], n, h);
    }
  }

  lemma {:induction false} ReversedAppend(p: seq<Node>, n: Node)
    ensures Reversed(p + [n]) == [n] + Reversed(p)
  {
    if p == [] {
      assert [n][1..] == [];
    } else {
      assert (p + [n])[1..] == p[1..] + [n];
      ReversedAppend(p[1..], n);
    }
  }

  /** One entry more: it goes to the end of what is kept, or of what is dropped. */
  lemma NextEntry(q: seq<Node>, i: nat, h: set<Node>)
    requires i < |q|
    ensures Kept(q[..i + 1], h) == if q[i] in h then Kept(q[..i], h) + [q[i]] else Kept(q[..i], h)
    ensures Dropped(q[..i + 1], h) == if q[i] in h then Dropped(q[..i], h) else Dropped(q[..i], h) + [q[i]]
    ensures q[i] in h ==> Reversed(Kept(q[..i + 1], h)) == [q[i]] + Reversed(Kept(q[..i], h))
  {
    assert q[..i + 1] == q[..i] + [q[i]];
    KeptAppend(q[..i], q[i], h);
    DroppedAppend(q[..i], q[i], h);
    ReversedAppend(Kept(q[..i], h), q[i]);
  }

  lemma {:induction false} ReversedSame(q: seq<Node>)
    ensures multiset(Reversed(q)) == multiset(q)
  {
    if q != [] {
      ReversedSame(q[1..]);
      assert q == [q[0]] + q[1..];
    }
  }

  lemma {:induction false} TotalUpdate(lists: seq<seq<Node>>, i: nat, q: seq<Node>, n: Node)
    requires i < |lists|
    ensures Total(lists[i := q])[n] + multiset(lists[i])[n] == Total(lists)[n] + multiset(q)[n]
  {
    if i == 0 {
      assert lists[0 := q][1..] == lists[1..];
    } else {
      assert lists[i := q][1..] == lists[1..][i - 1 := q] && lists[1..][i - 1] == lists[i];
      TotalUpdate(lists[1..], i - 1, q, n);
    }
  }

  lemma {:induction false} NothingLeft(lists: seq<seq<Node>>)
    ensures (forall i :: 0 <= i < |lists| ==> lists[i] == []) <==> Total(lists) == multiset{}
  {
    if lists != [] {
      NothingLeft(lists[1..]);
      assert lists[0] != [] ==> lists[0][0] in multiset(lists[0]);
      assert forall i :: 1 <= i < |lists| ==> lists[i] == lists[1..][i - 1];
    }
  }

  /** How often n is reclaimed, or waits to be. */
  function Times(lists: seq<seq<Node>>, pending: seq<Node>, reclaimed: seq<Node>, n: Node): nat {
    Total(lists)[n] + multiset(pending)[n] + multiset(reclaimed)[n]
  }

  /** Nothing is lost and nothing doubled. */
  ghost predicate Conserved(lists: seq<seq<Node>>, pending: seq<Node>, reclaimed: seq<Node>,
                            lists': seq<seq<Node>>, pending': seq<Node>, reclaimed': seq<Node>) {
    forall n: Node :: Times(lists', pending', reclaimed', n) == Times(lists, pending, reclaimed, n)
  }

  /** One cycle loses nothing and doubles nothing. */
  lemma CycleConserves(lists: seq<seq<Node>>, x: nat, pending: seq<Node>, reclaimed: seq<Node>, h: set<Node>, n: Node)
    requires x < |lists|
    ensures Times(lists[x := Kept(lists[x], h)], Reversed(Kept(pending, h)),
      reclaimed + Dropped(lists[x], h) + Dropped(pending, h), n)
         == Times(lists, pending, reclaimed, n)
  {
    KeptAndDropped(lists[x], h);
    KeptAndDropped(pending, h);
    ReversedSame(Kept(pending, h));
    TotalUpdate(lists, x, Kept(lists[x], h), n);
    assert multiset(lists[x])[n] == multiset(Kept(lists[x], h))[n] + multiset(Dropped(lists[x], h))[n];
    assert multiset(pending)[n] == multiset(Kept(pending, h))[n] + multiset(Dropped(pending, h))[n];
  }

  lemma CycleConservesAll(lists: seq<seq<Node>>, x: nat, pending: seq<Node>, reclaimed: seq<Node>, h: set<Node>)
    requires x < |lists|
    ensures Conserved(lists, pending, reclaimed,
                      lists[x := Kept(lists[x], h)], Reversed(Kept(pending, h)),
                        reclaimed + Dropped(lists[x], h) + Dropped(pending, h))
  {
    forall n: Node { CycleConserves(lists, x, pending, reclaimed, h, n); }
  }

  /** The list is cut at node. */
  lemma Cut(kept: seq<Node>, node: Node, rest: seq<Node>)
    ensures var list := kept + ([node] + rest);
      list[|kept|] == node && list[..|kept|] + list[|kept| + 1..] == kept + rest && list == kept + [node] + rest
  {
  }

  /** Nothing of a list is kept exactly when no entry has a hazard. */
  lemma NothingIsKept(q: seq<Node>, h: set<Node>)
    ensures Kept(q, h) == [] <==> forall n :: n in q ==> n !in h
  {
    KeptAndDropped(q, h);
    if Kept(q, h) == [] {
      forall n | n in q ensures n !in h { assert n in multiset(q) && n in multiset(Dropped(q, h)); }
    } else {
      assert Kept(q, h)[0] in multiset(q) && Kept(q, h)[0] in h;
    }
  }

  /** One pass over a reclaim list: entry by entry, reclaimed and taken out, or passed over. */
  method Filter(q: seq<Node>, found: HashSet) returns (list: seq<Node>, count: int, out: seq<Node>)
    requires found.Valid() && NULL !in q
    ensures list == Kept(q, found.Contents) && out == Dropped(q, found.Contents) && count == |list|
  {
    ghost var h := found.Contents;
    ghost var done: nat := 0;
    var i := 0;
    list, count, out := q, |q|, [];
    while i < |list|
      invariant done <= |q| && i == |Kept(q[..done], h)| && list == Kept(q[..done], h) + q[done..]
      invariant out == Dropped(q[..done], h) && count == |list|
      decreases |q| - done
    {
      assert q[done..] == [q[done]] + q[done + 1..];
      Cut(Kept(q[..done], h), q[done], q[done + 1..]);
      NextEntry(q, done, h);
      var r := found.Find(list[i]);
      if r.NotFound? {
        out, count := out + [list[i]], count - 1;
        list := list[..i] + list[i + 1..];
      } else {
        i := i + 1;
      }
      done := done + 1;
    }
    assert q[..done] == q && q[done..] == [];
  }

  /** The sweep of a detached chain: each entry is reclaimed, or put in front of those kept. */
  method SweepChain(chain: seq<Node>, found: HashSet) returns (kept: seq<Node>, out: seq<Node>)
    requires found.Valid() && NULL !in chain
    ensures kept == Reversed(Kept(chain, found.Contents)) && out == Dropped(chain, found.Contents) && NULL !in kept
  {
    ghost var h := found.Contents;
    var i := 0;
    kept, out := [], [];
    assert chain[..0] == [];
    while i < |chain|
      invariant 0 <= i <= |chain| && NULL !in kept
      invariant kept == Reversed(Kept(chain[..i], h)) && out == Dropped(chain[..i], h)
    {
      NextEntry(chain, i, h);
      var r := found.Find(chain[i]);
      if r.NotFound? {
        out := out + [chain[i]];
      } else {
        kept := [chain[i]] + kept;
      }
      i := i + 1;
    }
    assert chain[..i] == chain;
  }

  /** The first n allocations succeed. */
  ghost predicate Enough(memory: Memory, n: nat) { forall k: nat :: k < n ==> memory(k) }

  lemma EnoughLess(memory: Memory, m: nat, n: nat)
    requires m <= n
    ensures Enough(memory, n) ==> Enough(memory, m)
  {
  }

  /** Collects the hazards of one thread, lines 197-220; stops at the first that cannot be stored. */
  method CollectThread(hazards: seq<Node>, found: HashSet, used: nat, memory: Memory) returns (ok: bool, used': nat)
    requires found.Valid() && Enough(memory, used)
    modifies found`Contents, found.buckets
    ensures found.Valid() && used <= used'
    ensures ok <==> Enough(memory, used + Stored(hazards))
    ensures ok ==> used' == used + Stored(hazards) && found.Contents == old(found.Contents) + NonNull(hazards)
  {
    var i := 0;
    used' := used;
    while i < |hazards|
      invariant 0 <= i <= |hazards| && used <= used' && found.Valid() && Enough(memory, used')
      invariant used + Stored(hazards) == used' + Stored(hazards[i..])
      invariant found.Contents + NonNull(hazards[i..]) == old(found.Contents) + NonNull(hazards)
    {
      var node := hazards[i];
      assert hazards[i..] == [node] + hazards[i + 1..] && hazards[i..][1..] == hazards[i + 1..];
      if node != NULL {
        var r := found.Insert(node, memory(used'));
        if r.InsertError? {
          return false, used';
        }
        used' := used' + 1;
      }
      i := i + 1;
    }
    ok := true;
  }

  /** The loop over the threads, the newest first. Allocation 0 made the set. */
  method CollectThreads(active: seq<bool>, hazards: seq<seq<Node>>, found: HashSet, memory: Memory) returns (ok: bool)
    requires |active| == |hazards| && found.Valid() && found.Contents == {} && Enough(memory, 1)
    modifies found`Contents, found.buckets
    ensures found.Valid() && (ok <==> Enough(memory, 1 + HazardCount(active, hazards, |active|)))
    ensures ok ==> found.Contents == HazardSet(active, hazards, |active|)
  {
    var n, used := |active|, 1;
    ghost var size, all := HazardCount(active, hazards, n), HazardSet(active, hazards, n);
    while n > 0
      invariant 0 <= n <= |active| && found.Valid() && 1 <= used && Enough(memory, used)
      invariant 1 + size == used + HazardCount(active, hazards, n)
      invariant found.Contents + HazardSet(active, hazards, n) == all
    {
      n := n - 1;
      if active[n] {
        var stored, used' := CollectThread(hazards[n], found, used, memory);
        if !stored {
          EnoughLess(memory, used + Stored(hazards[n]), 1 + size);
          return false;
        }
        used := used';
      }
    }
    ok := true;
  }

  class Domain {
    var active: seq<bool>
    var hazards: seq<seq<Node>>      // the node fields of the records on each list of pointers
    var lists: seq<seq<Node>>        // reclaim_list of each thread
    var counts: seq<int>             // reclaim_list_entry_count
    var pending: seq<Node>           // pending_reclaim_list
    var threshold: nat
    var reclaimed: seq<Node>         // the nodes whose reclaim function was called, in order

    ghost predicate Valid()
      reads this
    {
      && |active| == |hazards| == |lists| == |counts|
      && threshold > 0
      && (forall i :: 0 <= i < |lists| ==> counts[i] == |lists[i]|)
      && (forall i :: 0 <= i < |lists| ==> NULL !in lists[i])
      && NULL !in pending
    }

    ghost function Found(): set<Node>
      reads this
      requires Valid()
    {
      HazardSet(active, hazards, |active|)
    }

    /** Whether every allocation that the collection of the hazards makes succeeds. */
    ghost predicate EnoughMemory(memory: Memory)
      reads this
      requires Valid()
    {
      Enough(memory, 1 + HazardCount(active, hazards, |active|))
    }

    constructor ()
      ensures Valid() && lists == [] && pending == [] && reclaimed == []
    {
      active, hazards, lists, counts, pending, threshold, reclaimed := [], [], [], [], [], 1, [];
    }

    /** Collects the hazards of all active threads, lines 176-227. */
    method Collect(memory: Memory) returns (found: HashSet?)
      requires Valid()
      ensures found != null <==> EnoughMemory(memory)
      ensures found != null ==> fresh(found) && fresh(found.buckets) && found.Valid() && found.Contents == Found()
    {
      if !memory(0) {
        return null;
      }
      var hps := new HashSet((k: Key) => k, threshold);
      var ok := CollectThreads(active, hazards, hps, memory);
      found := if ok then hps else null;
    }

    /** Reclaims the entries of the own list that are not in the set and keeps the others in order, lines 230-273. */
    method FilterList(x: nat, found: HashSet)
      requires Valid() && x < |lists| && found.Valid()
      modifies `lists, `counts, `reclaimed
      ensures Valid()
      ensures lists == old(lists)[x := Kept(old(lists[x]), found.Contents)]
      ensures reclaimed == old(reclaimed) + Dropped(old(lists[x]), found.Contents)
    {
      var list, count, out := Filter(lists[x], found);
      KeptIsPart(lists[x], found.Contents, NULL);
      lists, counts, reclaimed := lists[x := list], counts[x := count], reclaimed + out;
    }

    /** Detaches the pending list, reclaims its entries that are not in the set and puts the others back, in reverse
        order, lines 275-315. */
    method Sweep(found: HashSet)
      requires Valid() && found.Valid()
      modifies `pending, `reclaimed
      ensures Valid()
      ensures pending == Reversed(Kept(old(pending), found.Contents))
      ensures reclaimed == old(reclaimed) + Dropped(old(pending), found.Contents)
    {
      var chain := pending;
      pending := [];
      var kept, out := SweepChain(chain, found);
      pending, reclaimed := kept, reclaimed + out;
    }

    /** internal_reclaim of thread x */
    method ReclaimCycle(x: nat, memory: Memory)
      requires Valid() && x < |lists|
      modifies `lists, `counts, `pending, `reclaimed
      ensures Valid()
      ensures !EnoughMemory(memory) ==> lists == old(lists) && pending == old(pending) && reclaimed == old(reclaimed)
      ensures EnoughMemory(memory) ==>
        && lists == old(lists)[x := Kept(old(lists[x]), Found())]
        && pending == Reversed(Kept(old(pending), Found()))
        && reclaimed == old(reclaimed) + Dropped(old(lists[x]), Found()) + Dropped(old(pending), Found())
      ensures Conserved(old(lists), old(pending), old(reclaimed), lists, pending, reclaimed)
    {
      CycleConservesAll(lists, x, pending, reclaimed, Found());
      var found := Collect(memory);
      if found != null {
        FilterList(x, found);
        Sweep(found);
      }
    }

    /** The entries that a destroy leaves on list i: those with a hazard, or all if its cycle had no memory. */
    ghost function LeftOn(i: nat, list: seq<Node>, memory: nat -> Memory): seq<Node>
      reads this
      requires Valid()
    {
      if EnoughMemory(memory(i)) then Kept(list, Found()) else list
    }

    /** clds_hazard_pointers_destroy, lines 454-502: a cycle for each thread, then all that is pending. What is left
        on a thread's list then is lost. */
    method Destroy(memory: nat -> Memory)
      requires Valid()
      modifies `lists, `counts, `pending, `reclaimed
      ensures Valid() && pending == [] && |lists| == |old(lists)|
      ensures forall i :: 0 <= i < |lists| ==> lists[i] == LeftOn(i, old(lists[i]), memory)
      ensures Conserved(old(lists), old(pending), old(reclaimed), lists, [], reclaimed)
    {
      var n := |active|;
      while n > 0
        invariant 0 <= n <= |active| && Valid() && |lists| == |old(lists)|
        invariant forall i :: n <= i < |lists| ==> lists[i] == LeftOn(i, old(lists[i]), memory)
        invariant forall i :: 0 <= i < n ==> lists[i] == old(lists[i])
        invariant Conserved(old(lists), old(pending), old(reclaimed), lists, pending, reclaimed)
      {
        n := n - 1;
        ReclaimCycle(n, memory(n));
      }
      Drain();
    }

    /** A destroy leaves nothing of a list, and so reclaims all of it, exactly when the list was empty, or its cycle had
        memory and no entry has a hazard. */
    lemma NothingIsLost(i: nat, list: seq<Node>, memory: nat -> Memory)
      requires Valid()
      ensures LeftOn(i, list, memory) == [] <==>
        list == [] || (EnoughMemory(memory(i)) && forall n :: n in list ==> n !in Found())
    {
      NothingIsKept(list, Found());
      assert list != [] ==> list[0] in list;
    }

    /** The end of destroy, lines 486-495: all that is pending is reclaimed, in order. */
    method Drain()
      requires Valid()
      modifies `pending, `reclaimed
      ensures Valid() && pending == [] && reclaimed == old(reclaimed) + old(pending)
      ensures Conserved(lists, old(pending), old(reclaimed), lists, [], reclaimed)
    {
      var chain, i := pending, 0;
      pending := [];
      while i < |chain|
        invariant 0 <= i <= |chain| && reclaimed == old(reclaimed) + chain[..i] && pending == [] && Valid()
      {
        reclaimed := reclaimed + [chain[i]];
        i := i + 1;
      }
      assert chain[..i] == chain;
    }
  }
}
