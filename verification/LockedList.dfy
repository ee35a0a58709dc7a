/** The sorted list together with a write lock, its own or that of the hash table it is a bucket of: writers call
    insert, delete, remove and set_value between begin and end; get_count and get_all run under the lock, among find
    calls of other threads, and read `next` without clearing bit 0 (src/clds_sorted_list.c:93-140, 1748-1919). */
module LockedList {
  import opened Memory
  import opened References
  import L = SortedList
  import S = SortedListSafety
  import C = SortedListVerdicts
  import T = SortedListTheorems
  import G = WriteGate

  datatype State = State(list: L.State, gate: G.State)

  datatype Action = OfList(a: L.Action) | OfGate(g: G.Action)

  predicate Writes(op: L.Op) { op.Insert? || op.Delete? || op.Remove? || op.SetValue? }

  function Do(s: State, a: Action): State {
    match a
    case OfList(x) => s.(list := L.Do(s.list, x))
    case OfGate(g) => s.(gate := G.Do(s.gate, g))
  }

  /** A thread is in a writing call only between begin and end, and uses the lock between calls. */
  ghost predicate Allowed(s: State, a: Action) {
    match a
    case OfList(x) => L.Allowed(s.list, x) && (x.Begin? && Writes(x.op) ==> s.gate.pc(x.t).Writing?)
    case OfGate(g) => G.Allowed(s.gate, g) && s.list.local(g.t).pc.Idle?
  }

  ghost predicate WriterOk(s: State, t: Tid) { Writes(s.list.local(t).op) ==> s.gate.pc(t).Writing? }

  ghost predicate Inv(s: State) { T.Inv(s.list) && G.Inv(s.gate) && forall t: Tid :: WriterOk(s, t) }

  lemma ListActionKeeps(s: State, x: L.Action)
    requires Inv(s) && Allowed(s, OfList(x))
    ensures Inv(Do(s, OfList(x)))
  {
    T.ActionKeeps(s.list, x);
    var s' := Do(s, OfList(x));
    if x.Move? { C.StepIsMine(s.list, x.t, x.env); }
    forall t: Tid ensures WriterOk(s', t) {
      assert WriterOk(s, t) && L.LocalOk(s'.list, t);
      assert x.Move? && x.t != t ==> s'.list.local(t) == s.list.local(t);
    }
  }

  lemma GateActionKeeps(s: State, g: G.Action)
    requires Inv(s) && Allowed(s, OfGate(g))
    ensures Inv(Do(s, OfGate(g)))
  {
    G.ActionKeeps(s.gate, g);
    forall t: Tid ensures WriterOk(Do(s, OfGate(g)), t) { assert WriterOk(s, t) && L.LocalOk(s.list, t); }
  }

  lemma ActionKeeps(s: State, a: Action)
    requires Inv(s) && Allowed(s, a)
    ensures Inv(Do(s, a))
  {
    match a
    case OfList(x) => ListActionKeeps(s, x);
    case OfGate(g) => GateActionKeeps(s, g);
  }

  function After(s: State, actions: seq<Action>): State {
    if actions == [] then s else Do(After(s, actions[..|actions| - 1]), actions[|actions| - 1])
  }

  ghost predicate AllAllowed(s: State, actions: seq<Action>) {
    forall k :: 0 <= k < |actions| ==> Allowed(After(s, actions[..k]), actions[k])
  }

  // ---------- under the lock ----------

  /** l holds the lock and has seen zero pending writers, or its caller has otherwise seen to it that only finds are in
      flight. */
  ghost predicate OnlyFindsFor(s: State, l: Tid) {
    || s.gate.pc(l).Exclusive?
    || forall t: Tid {:trigger s.list.local(t)} :: s.list.local(t).op.Nothing? || s.list.local(t).op.Find?
  }

  lemma OnlyFinds(s: State, l: Tid, t: Tid)
    requires Inv(s) && OnlyFindsFor(s, l)
    ensures s.list.local(t).op.Nothing? || s.list.local(t).op.Find?
  {
    assert WriterOk(s, t) && G.Excluded(s.gate, l, t);
  }

  /** Then no node of the list has its delete bit set. */
  lemma NoMarkUnderLock(s: State, l: Tid, n: L.Node)
    requires Inv(s) && OnlyFindsFor(s, l) && s.list.status(n).Linked?
    ensures !s.list.next(n).marked
  {
    forall t: Tid ensures !L.HasMark(s.list.local(t).pc) {
      OnlyFinds(s, l, t);
      assert L.LocalOk(s.list, t);
    }
    T.NoOwnerNoLock(s.list, n);
  }

  /** The list is the same: its head, who is in it, and their keys and links. */
  ghost predicate SameList(s: L.State, s': L.State) {
    s'.head == s.head && forall n: L.Node :: SameNode(s, s', n)
  }

  ghost predicate SameNode(s: L.State, s': L.State, n: L.Node) {
    && s'.status(n).Linked? == s.status(n).Linked?
    && (s.status(n).Linked? ==> s'.next(n) == s.next(n) && s'.key(n) == s.key(n))
  }

  /** And no action changes the list. */
  lemma FrozenUnderLock(s: State, a: Action, l: Tid)
    requires Inv(s) && Allowed(s, a) && OnlyFindsFor(s, l)
    ensures SameList(s.list, Do(s, a).list)
  {
    if a.OfList? {
      var x := a.a;
      if x.Move? {
        OnlyFinds(s, l, x.t);
        FindLeavesList(s.list, x.t, x.env);
      } else {
        forall n: L.Node ensures SameNode(s.list, Do(s, a).list, n) { assert L.NodeOk(s.list, n); }
      }
    }
  }

  lemma FindLeavesList(s: L.State, t: Tid, e: L.Env)
    requires L.ListInv(s) && (s.local(t).op.Nothing? || s.local(t).op.Find?)
    ensures var s' := L.Step(s, t, e);
      s'.head == s.head && s'.status == s.status && s'.next == s.next && s'.key == s.key
  {
    assert L.LocalOk(s, t);
  }

  /** A run of other threads, and of l between its calls, through all of which l is undisturbed by writers. */
  ghost predicate Undisturbed(s: State, actions: seq<Action>, l: Tid) {
    AllAllowed(s, actions) && forall k :: 0 <= k <= |actions| ==> OnlyFindsFor(After(s, actions[..k]), l)
  }

  /** So for as long as the locker holds the lock, every walk sees the same list. */
  lemma {:induction false} FrozenRun(s: State, actions: seq<Action>, l: Tid)
    requires Inv(s) && Undisturbed(s, actions, l)
    ensures Inv(After(s, actions)) && SameList(s.list, After(s, actions).list)
  {
    if actions != [] {
      var n := |actions| - 1;
      assert forall k :: 0 <= k <= n ==> actions[..n][..k] == actions[..k];
      FrozenRun(s, actions[..n], l);
      var s1 := After(s, actions[..n]);
      ActionKeeps(s1, actions[n]);
      FrozenUnderLock(s1, actions[n], l);
      SameListChain(s.list, s1.list, Do(s1, actions[n]).list);
    }
  }

  lemma SameListChain(s: L.State, s1: L.State, s2: L.State)
    requires SameList(s, s1) && SameList(s1, s2)
    ensures SameList(s, s2)
  {
    forall n: L.Node ensures SameNode(s, s2, n) { assert SameNode(s, s1, n) && SameNode(s1, s2, n); }
  }

  // ---------- get_count and get_all ----------

  datatype GetCountResult = CountOk | CountNotLocked
  datatype GetAllResult = AllOk | AllError | AllNotLocked | NotEnoughSpace

  function PtrAt(q: seq<L.Node>, i: nat): L.Ptr { if i < |q| then L.To(q[i]) else L.Null }

  /** Reading `next` as it is, bit 0 included, leads from p through q to NULL. */
  ghost predicate Leads(s: L.State, p: L.Ptr, q: seq<L.Node>) {
    p == PtrAt(q, 0) && forall i {:trigger s.next(q[i])} :: 0 <= i < |q| ==>
      s.next(q[i]) == L.Link(PtrAt(q, i + 1), false)
  }

  lemma {:induction false} WalkLeads(s: L.State, p: L.Ptr)
    requires L.ListInv(s) && (p.To? ==> s.status(p.node).Linked?) && forall n: L.Node {:trigger s.status(n)} ::
      s.status(n).Linked? ==> !s.next(n).marked
    ensures Leads(s, p, T.Walk(s, p))
    decreases T.Ahead(s, p)
  {
    if p.To? {
      assert L.LinkOk(s, L.NextOf(p.node)) && L.NodeOk(s, p.node);
      var nxt := s.next(p.node).ptr;
      assert p.node in T.Ahead(s, p) && p.node !in T.Ahead(s, nxt);
      WalkLeads(s, nxt);
      var q := T.Walk(s, nxt);
      assert T.Walk(s, p) == [p.node] + q;
      forall i | 0 <= i < |q| + 1 ensures s.next(([p.node] + q)[i]) == L.Link(PtrAt([p.node] + q, i + 1), false) {
        if i > 0 { assert s.next(q[i - 1]) == L.Link(PtrAt(q, i), false); }
      }
    }
  }

  /** The items of the list, in key order. */
  ghost function Items(s: State): (q: seq<L.Node>)
    requires Inv(s)
    ensures forall n: L.Node :: n in q <==> s.list.status(n).Linked?
    ensures forall i, j :: 0 <= i < j < |q| ==> s.list.key(q[i]) < s.list.key(q[j])
  {
    T.WalkVisitsList(s.list);
    T.Walk(s.list, s.list.head)
  }

  /** Under the lock a walk that does not clear bit 0 visits exactly the items of the list. */
  lemma PlainWalkIsExact(s: State, l: Tid)
    requires Inv(s) && OnlyFindsFor(s, l)
    ensures Leads(s.list, s.list.head, Items(s))
  {
    forall n: L.Node | s.list.status(n).Linked? ensures !s.list.next(n).marked { NoMarkUnderLock(s, l, n); }
    T.WalkVisitsList(s.list);
    WalkLeads(s.list, s.list.head);
  }

  // ---------- a walk among the steps of other threads ----------

  /** What a walker finds at its accesses, one list for each. */
  type View = nat -> L.State

  /** x is the list at some moment after s, up to which l was undisturbed. */
  ghost predicate Later(s: State, l: Tid, x: L.State) {
    exists actions: seq<Action> :: Undisturbed(s, actions, l) && After(s, actions).list == x
  }

  /** At all accesses the links lead through q. */
  ghost predicate Still(view: View, q: seq<L.Node>) { forall k: nat :: Leads(view(k), view(k).head, q) }

  lemma SameListLeads(s: L.State, s': L.State, q: seq<L.Node>)
    requires SameList(s, s') && Leads(s, s.head, q) && forall n: L.Node :: n in q ==> s.status(n).Linked?
    ensures Leads(s', s'.head, q)
  {
    forall i | 0 <= i < |q| ensures s'.next(q[i]) == L.Link(PtrAt(q, i + 1), false) {
      assert q[i] in q && SameNode(s, s', q[i]);
      assert s.next(q[i]) == L.Link(PtrAt(q, i + 1), false);
    }
  }

  /** At any later moment the walk is the same, and the count of every node on it is above 0. */
  lemma LaterIsStill(s: State, l: Tid, x: L.State)
    requires Inv(s) && Later(s, l, x)
    ensures Leads(x, x.head, Items(s)) && forall n: L.Node :: n in Items(s) ==> x.refs(n) > 0
  {
    var actions :| Undisturbed(s, actions, l) && After(s, actions).list == x;
    FrozenRun(s, actions, l);
    assert actions[..0] == [];
    PlainWalkIsExact(s, l);
    SameListLeads(s.list, x, Items(s));
    forall n: L.Node | n in Items(s) ensures x.refs(n) > 0 { assert SameNode(s.list, x, n) && L.RefsOk(x, n); }
  }

  lemma ViewIsStill(s: State, l: Tid, view: View)
    requires Inv(s) && forall k: nat :: Later(s, l, view(k))
    ensures Still(view, Items(s))
  {
    forall k: nat ensures Leads(view(k), view(k).head, Items(s)) { LaterIsStill(s, l, view(k)); }
  }

  /** The walk of get_count. */
  method CountNodes(view: View, ghost q: seq<L.Node>) returns (count: nat)
    requires Still(view, q)
    ensures count == |q|
  {
    count := 0;
    assert Leads(view(0), view(0).head, q);
    var current := view(0).head;
    while current.To?
      invariant count <= |q| && current == PtrAt(q, count)
      decreases |q| - count
    {
      count := count + 1;
      assert Leads(view(count), view(count).head, q)
        && view(count).next(q[count - 1]) == L.Link(PtrAt(q, count), false);
      current := view(count).next(current.node).ptr;
    }
  }

  /** get_count by l */
  method GetCount(s: State, l: Tid, view: View) returns (r: GetCountResult, count: nat)
    requires Inv(s) && (s.gate.locked == 0 || forall k: nat :: Later(s, l, view(k)))
    ensures if s.gate.locked == 0 then r.CountNotLocked? else r.CountOk? && count == |Items(s)|
  {
    if s.gate.locked == 0 {
      return CountNotLocked, 0;
    }
    ViewIsStill(s, l, view);
    count := CountNodes(view, Items(s));
    r := CountOk;
  }

  /** The loop of get_all that copies the nodes into the buffer from index from on, until the list or the space ends.
      mine are the references that its caller has taken, which come on top of what other threads do to the counts. */
  method CopyNodes(view: View, ghost q: seq<L.Node>, items: array<L.Ptr>, from: nat, space: nat, mine: Counts)
    returns (index: nat, current: L.Ptr, mine': Counts)
    requires Still(view, q) && from + space <= items.Length
    modifies items
    ensures index == (if |q| < space then |q| else space) && (current.To? <==> index < |q|)
    ensures items[..from] == old(items[..from])
      && (forall i :: from <= i < from + index ==> items[i] == L.To(q[i - from]))
    ensures mine' == AddRefs(mine, q[..index])
  {
    assert Leads(view(0), view(0).head, q);
    index, current, mine' := 0, view(0).head, mine;
    while current.To?
      invariant 0 <= index <= space && index <= |q| && current == PtrAt(q, index)
      invariant items[..from] == old(items[..from]) && forall i :: from <= i < from + index ==>
        items[i] == L.To(q[i - from])
      invariant mine' == AddRefs(mine, q[..index])
      decreases |q| - index
    {
      assert Leads(view(index + 1), view(index + 1).head, q);
      assert view(index + 1).next(q[index]) == L.Link(PtrAt(q, index + 1), false);
      var nxt := view(index + 1).next(current.node).ptr;
      if index + 1 > space {
        break;
      }
      assert q[..index + 1][..index] == q[..index];
      mine' := Put(mine', current.node, mine'(current.node) + 1);
      items[from + index] := current;
      index, current := index + 1, nxt;
    }
  }

  /** The loop of get_all that gives the references back when there is not enough space. */
  method ReleaseNodes(ghost q: seq<L.Node>, items: array<L.Ptr>, from: nat, index: nat, taken: Counts)
    returns (mine: Counts)
    requires from + index <= items.Length && index == |q|
    requires forall i :: from <= i < from + index ==> items[i] == L.To(q[i - from])
    modifies items
    ensures mine == Release(taken, q)
    ensures items[..from] == old(items[..from]) && forall i :: from <= i < from + index ==> items[i].Null?
  {
    mine := taken;
    var i := 0;
    assert q[0..] == q;
    while i < index
      invariant 0 <= i <= index && items[..from] == old(items[..from])
      invariant forall j :: from <= j < from + i ==> items[j].Null?
      invariant forall j :: from + i <= j < from + index ==> items[j] == L.To(q[j - from])
      invariant Release(mine, q[i..]) == Release(taken, q)
    {
      assert q[i..][0] == q[i] && q[i..][1..] == q[i + 1..];
      mine := Put(mine, items[from + i].node, mine(items[from + i].node) - 1);
      items[from + i] := L.Null;
      i := i + 1;
    }
  }

  /** get_all once the lock was looked at, for the walk q, into the space of the buffer from index from on. */
  method CopyAll(view: View, ghost q: seq<L.Node>, items: array<L.Ptr>, from: nat, space: nat, mine: Counts)
    returns (r: GetAllResult, retrieved: nat, mine': Counts)
    requires Still(view, q) && from + space <= items.Length
    modifies items
    ensures items[..from] == old(items[..from])
    ensures if |q| > space then r.NotEnoughSpace? && forall i :: from <= i < from + space ==> items[i].Null?
            else r.AllOk? && retrieved == |q| && forall i :: from <= i < from + retrieved ==>
              items[i] == L.To(q[i - from])
    ensures Plus(mine, if r.AllOk? then q else [], mine')
  {
    var index, current, taken := CopyNodes(view, q, items, from, space, mine);
    AddRefsPlus(mine, q[..index]);
    if current.To? {
      mine' := ReleaseNodes(q[..index], items, from, index, taken);
      ReleaseUndoes(mine, q[..index], taken);
      return NotEnoughSpace, 0, mine';
    }
    assert q[..index] == q;
    return AllOk, index, taken;
  }

  /** What get_all answers for the walk q. */
  ghost predicate Answers(q: seq<L.Node>, items: array<L.Ptr>, locked: int, requireLocked: bool, r: GetAllResult,
          retrieved: nat)
    reads items
  {
    if items.Length == 0 then r.AllError?
    else if requireLocked && locked == 0 then r.AllNotLocked?
    else if |q| > items.Length then r.NotEnoughSpace? && forall i :: 0 <= i < items.Length ==> items[i].Null?
    else r.AllOk? && retrieved == |q| && forall i :: 0 <= i < retrieved ==> items[i] == L.To(q[i])
  }

  method GetWalk(view: View, ghost q: seq<L.Node>, items: array<L.Ptr>, locked: int, requireLocked: bool, mine: Counts)
    returns (r: GetAllResult, retrieved: nat, mine': Counts)
    requires (requireLocked && locked == 0) || Still(view, q)
    modifies items
    ensures Answers(q, items, locked, requireLocked, r, retrieved) && Plus(mine, if r.AllOk? then q else [], mine')
  {
    if items.Length == 0 {
      return AllError, 0, mine;
    }
    if requireLocked && locked == 0 {
      return AllNotLocked, 0, mine;
    }
    r, retrieved, mine' := CopyAll(view, q, items, 0, items.Length, mine);
  }

  /** get_all by l, among the steps of other threads, into a buffer of its caller. mine are the references the caller
      has taken before and mine' those after it; a node's count is what the other threads make it, and these on
      top. */
  method GetAll(s: State, l: Tid, view: View, items: array<L.Ptr>, requireLocked: bool, mine: Counts)
    returns (r: GetAllResult, retrieved: nat, mine': Counts)
    requires Inv(s) && ((requireLocked && s.gate.locked == 0) || forall k: nat :: Later(s, l, view(k)))
    modifies items
    ensures Answers(Items(s), items, s.gate.locked, requireLocked, r, retrieved)
    ensures Plus(mine, if r.AllOk? then Items(s) else [], mine')
  {
    if !requireLocked || s.gate.locked != 0 { ViewIsStill(s, l, view); }
    r, retrieved, mine' := GetWalk(view, Items(s), items, s.gate.locked, requireLocked, mine);
  }

  /** The references taken are one for each item of the list. */
  lemma OneRefEach(s: State, n: L.Node)
    requires Inv(s)
    ensures multiset(Items(s))[n] == if s.list.status(n).Linked? then 1 else 0
  {
    OnceInSorted(s.list, Items(s), n);
  }

  lemma {:induction false} OnceInSorted(s: L.State, q: seq<L.Node>, n: L.Node)
    requires forall i, j :: 0 <= i < j < |q| ==> s.key(q[i]) < s.key(q[j])
    ensures multiset(q)[n] == if n in q then 1 else 0
  {
    if q != [] {
      assert q == [q[0]] + q[1..];
      OnceInSorted(s, q[1..], n);
    }
  }
}
