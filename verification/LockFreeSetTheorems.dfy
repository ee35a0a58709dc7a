/** What every run of the lock-free set does, for any number of threads. */
module LockFreeSetTheorems {
  import opened Memory
  import opened LockFreeSet
  import opened LockFreeSetSafety

  // ---------- runs ----------

  function After(s: State, actions: seq<Action>): State {
    if actions == [] then s else Do(After(s, actions[..|actions| - 1]), actions[|actions| - 1])
  }

  ghost predicate AllAllowed(s: State, actions: seq<Action>) {
    forall k :: 0 <= k < |actions| ==> Allowed(After(s, actions[..k]), actions[k])
  }

  lemma InitHolds(s: State)
    requires Init(s)
    ensures Inv(s)
  {
    assert forall t: Tid :: LocalOk(s, t);
  }

  /** The invariant holds after every allowed run, by any number of threads. */
  lemma {:induction false} RunKeepsInv(s: State, actions: seq<Action>)
    requires Init(s) && AllAllowed(s, actions)
    ensures Inv(After(s, actions))
  {
    if actions == [] {
      InitHolds(s);
    } else {
      var n := |actions| - 1;
      assert forall k :: 0 <= k < n ==> actions[..n][..k] == actions[..k];
      RunKeepsInv(s, actions[..n]);
      if actions[n].Step? {
        AccessKeeps(After(s, actions[..n]), actions[n].t);
      } else {
        BeginKeeps(After(s, actions[..n]), actions[n]);
      }
    }
  }

  /** In every run no unlock fails and no NULL or locked pointer is followed: remove never returns an error. */
  lemma RemoveNeverFails(s: State, actions: seq<Action>, t: Tid)
    requires Init(s) && AllAllowed(s, actions)
    ensures !After(s, actions).local(t).pc.Failed? && !After(s, actions).local(t).pc.Crashed?
  {
    RunKeepsInv(s, actions);
    assert LocalOk(After(s, actions), t);
  }

  // ---------- locks ----------

  /** The thread that holds the lock of a link of i, if any does. */
  ghost predicate OwnedBy(s: State, i: Item, t: Tid) {
    s.status(i) == Leaving(t) || (s.status(i).Pending? && s.status(i).who == t)
  }

  /** A locked link belongs to a remover of its item. */
  lemma LockHasOwner(s: State, i: Item)
    requires Inv(s) && (Linked(s, i) || s.status(i).Pending?) && (s.prev(i).locked || s.next(i).locked)
    ensures (s.status(i).Leaving? || s.status(i).Pending?) && OwnedBy(s, i, s.status(i).who)
  {
    assert ItemOk(s, i);
  }

  /** No other thread changes a link that is locked. */
  lemma LockedLinkIsFrozen(s: State, i: Item, t: Tid, u: Tid)
    requires Inv(s) && OwnedBy(s, i, t) && u != t
    ensures s.prev(i).locked ==> Access(s, u).prev(i) == s.prev(i)
    ensures s.next(i).locked ==> Access(s, u).next(i) == s.next(i)
  {
    assert LocalOk(s, u);
    if s.local(u).pc.MidUnlink? { MidPrevUpstream(s, u); }
  }

  /** A neighbour reached through a link of an item still being removed has not finished being removed itself. */
  lemma NeighboursStay(s: State, i: Item)
    requires Inv(s) && (Linked(s, i) || s.status(i).Pending?)
    ensures s.prev(i).ptr.To? ==> Linked(s, s.prev(i).ptr.item) || s.status(s.prev(i).ptr.item).Pending?
    ensures s.next(i).ptr.To? ==> Linked(s, s.next(i).ptr.item)
  {
    assert PrevOk(s, i) && NextOk(s, i) && PendingPrevOk(s, i) && Frozen(s, i);
  }

  /** The item whose memory the next access of a thread reads or writes, other than its own. */
  function Touched(l: Local): Ptr {
    match l.pc
    case InsFixPrev | HeadFixPrev | MidReadNextPrev | MidFixPrev => l.n.ptr
    case MidReadPrevNext | MidUnlink => l.p.ptr
    case _ => Null
  }

  /** No access goes to an item whose removal has returned. */
  lemma TouchedIsInside(s: State, t: Tid)
    requires Inv(s)
    ensures var a := Touched(s.local(t)); a.To? ==> Linked(s, a.item) || s.status(a.item).Pending?
  {
    assert LocalOk(s, t);
    var x := s.local(t).x;
    assert Frozen(s, x) && (s.status(x).Fixing? ==> NextOk(s, x) && Before(s, x, s.status(x).over));
    if s.local(t).pc.MidReadPrevNext? || s.local(t).pc.MidUnlink? { MidPrevUpstream(s, t); }
  }

  // ---------- the set is what the links from head visit ----------

  /** The items visited from p by following `next` with the lock bit cleared. */
  ghost function Walk(s: State, p: Ptr): (q: seq<Item>)
    requires Chain(s) && (p.To? ==> Linked(s, p.item))
    ensures forall x: Item :: x in q <==> Linked(s, x) && p.To? && s.stamp(x) <= s.stamp(p.item)
    ensures forall i, j :: 0 <= i < j < |q| ==> s.stamp(q[j]) < s.stamp(q[i])
    ensures p.To? ==> |q| > 0 && q[0] == p.item
    decreases if p.To? then s.stamp(p.item) + 1 else 0
  {
    if p == Null then []
    else
      assert NextOk(s, p.item);
      var rest := Walk(s, s.next(p.item).ptr);
      assert forall x: Item :: x in rest <==> Linked(s, x) && s.stamp(x) < s.stamp(p.item) by {
        assert forall x: Item {:trigger Linked(s, x)} :: NoneSkipped(s, p.item, x);
      }
      assert forall x: Item {:trigger Linked(s, x)} :: NoneSkipped(s, p.item, x);
      [p.item] + rest
  }

  /** Walking from head visits exactly the linked items, each once, and ends. */
  lemma WalkVisitsSet(s: State)
    requires Chain(s)
    ensures forall x: Item :: x in Walk(s, s.head) <==> Linked(s, x)
    ensures forall i, j :: 0 <= i < j < |Walk(s, s.head)| ==> Walk(s, s.head)[i] != Walk(s, s.head)[j]
  {
    forall x: Item ensures x in Walk(s, s.head) <==> Linked(s, x) { assert BelowHead(s, x); }
  }

  /** q without its first x. */
  function Without(q: seq<Item>, x: Item): seq<Item> {
    if q == [] then [] else if q[0] == x then q[1..] else [q[0]] + Without(q[1..], x)
  }

  /** The linked items have the same links in s and s'. */
  ghost predicate SameLinks(s: State, s': State) {
    forall i: Item {:trigger Linked(s', i)} {:trigger s'.next(i)} :: Linked(s, i) ==>
      Linked(s', i) && s'.next(i).ptr == s.next(i).ptr
  }

  lemma {:induction false} WalkSame(s: State, s': State, p: Ptr)
    requires Chain(s) && Chain(s') && SameLinks(s, s')
    requires p.To? ==> Linked(s, p.item) && Linked(s', p.item)
    ensures Walk(s', p) == Walk(s, p)
    decreases if p.To? then s.stamp(p.item) + 1 else 0
  {
    if p.To? {
      assert NextOk(s, p.item) && NextOk(s', p.item);
      WalkSame(s, s', s.next(p.item).ptr);
    }
  }

  /** Taking x out of a walk whose second item it is. */
  lemma WalkPast(s: State, q: Item, x: Item)
    requires Chain(s) && Linked(s, q) && Linked(s, x) && q != x && s.next(q).ptr == To(x)
    ensures NextOk(s, x) && Without(Walk(s, To(q)), x) == [q] + Without(Walk(s, s.next(x).ptr), x)
  {
    assert NextOk(s, q) && NextOk(s, x);
    var rest := Walk(s, s.next(x).ptr);
    assert x !in rest;
    WithoutAbsent(rest, x);
    assert Walk(s, To(q)) == [q] + ([x] + rest);
  }

  lemma {:induction false} WalkSkips(s: State, s': State, x: Item, st: Status, p: Ptr)
    requires Chain(s) && Chain(s') && Linked(s, x) && Skipped(s, s', x, st) && !Linked(s', x)
    requires p.To? ==> Linked(s, p.item) && p.item != x
    requires s.head != To(x) ==> Before(s, s.prev(x).ptr.item, x)
    requires s.head == To(x) ==> forall i: Item {:trigger Before(s, i, x)} :: !Before(s, i, x)
    ensures p.To? ==> Linked(s', p.item)
    ensures Walk(s', p) == Without(Walk(s, p), x)
    decreases if p.To? then s.stamp(p.item) + 1 else 0
  {
    if p.To? {
      var q := p.item;
      assert NextOk(s, q) && NextOk(s', q) && NextOk(s, x);
      if s.next(q).ptr == To(x) {
        assert Before(s, q, x);
        UniqueBefore(s, q, s.prev(x).ptr.item, x);
        WalkSkips(s, s', x, st, s.next(x).ptr);
        WalkPast(s, q, x);
      } else {
        WalkSkips(s, s', x, st, s.next(q).ptr);
      }
    }
  }

  lemma {:induction false} WithoutAbsent(q: seq<Item>, x: Item)
    requires x !in q
    ensures Without(q, x) == q
  {
    if q != [] { WithoutAbsent(q[1..], x); }
  }

  /** The head CAS of an insert. */
  ghost predicate Links(s: State, a: Action) {
    a.Step? && s.local(a.t).pc.InsCasHead? && s.head == s.local(a.t).n.ptr
  }

  /** The CAS of a remove that takes the item out: on head, or on the `next` of the item before. */
  ghost predicate Unlinks(s: State, a: Action) {
    && a.Step?
    && ((s.local(a.t).pc.HeadCas? && s.head == To(s.local(a.t).x))
        || (s.local(a.t).pc.MidUnlink? && !s.local(a.t).p.locked && s.local(a.t).p.ptr.To?
            && s.next(s.local(a.t).p.ptr.item) == Link(To(s.local(a.t).x), false)))
  }

  lemma WalkAfterLink(s: State, t: Tid)
    requires Inv(s) && Links(s, Step(t))
    ensures var s' := Access(s, t); Chain(s') && Walk(s', s'.head) == [s.local(t).x] + Walk(s, s.head)
  {
    var s', x := Access(s, t), s.local(t).x;
    InsCasStep(s, t);
    assert LocalOk(s, t) && NextOk(s', x);
    assert !Linked(s, x);
    WalkSame(s, s', s.head);
  }

  lemma WalkAfterUnlink(s: State, t: Tid)
    requires Inv(s) && Unlinks(s, Step(t))
    ensures var s' := Access(s, t); Chain(s') && Walk(s', s'.head) == Without(Walk(s, s.head), s.local(t).x)
  {
    var s', x := Access(s, t), s.local(t).x;
    if s.local(t).pc.HeadCas? { HeadCasStep(s, t); } else { MidUnlinkStep(s, t); }
    NothingUpstream(s, s', t, x);
    if s.head == To(x) {
      assert NextOk(s, x);
      WalkSkips(s, s', x, AfterUnlink(s, t, x), s.next(x).ptr);
      assert x !in Walk(s, s.next(x).ptr);
      WithoutAbsent(Walk(s, s.next(x).ptr), x);
    } else {
      WalkSkips(s, s', x, AfterUnlink(s, t, x), s.head);
    }
  }

  lemma OtherStepsKeepLinks(s: State, a: Action)
    requires Inv(s) && Allowed(s, a) && !Links(s, a) && !Unlinks(s, a)
    ensures var s' := Do(s, a); s'.head == s.head && (forall x: Item :: Linked(s', x) == Linked(s, x))
    ensures var s' := Do(s, a); forall x: Item {:trigger s'.next(x)} :: Linked(s, x) ==> s'.next(x).ptr == s.next(x).ptr
    ensures Do(s, a).stamp == s.stamp
  {
    if a.Step? {
      assert LocalOk(s, a.t);
      if QuietPc(s.local(a.t).pc) { QuietStep(s, a.t); }
      if s.local(a.t).pc.MidUnlink? { MidPrevUpstream(s, a.t); }
      if s.local(a.t).pc.MidReadNextPrev? { NextPrevNeverNull(s, a.t); }
    }
  }

  /** What any action does to the set: only the head CAS of an insert adds an item, in front, and only the unlink
      CAS of a remove takes one out; every other access leaves the walk as it was. */
  lemma StepEffect(s: State, a: Action)
    requires Inv(s) && Allowed(s, a)
    ensures Inv(Do(s, a))
    ensures Walk(Do(s, a), Do(s, a).head) ==
      if Links(s, a) then [s.local(a.t).x] + Walk(s, s.head)
      else if Unlinks(s, a) then Without(Walk(s, s.head), s.local(a.t).x)
      else Walk(s, s.head)
  {
    if a.Step? { AccessKeeps(s, a.t); } else { BeginKeeps(s, a); }
    if Links(s, a) { WalkAfterLink(s, a.t); }
    else if Unlinks(s, a) { WalkAfterUnlink(s, a.t); }
    else {
      OtherStepsKeepLinks(s, a);
      WalkSame(s, Do(s, a), s.head);
    }
  }

  // ---------- when nothing is in flight ----------

  lemma NothingBeforeHead(s: State)
    requires Chain(s) && s.head.To?
    ensures forall p: Item :: !Before(s, p, s.head.item)
  {
    forall p: Item ensures !Before(s, p, s.head.item) {
      assert BelowHead(s, p) && NextOk(s, p);
    }
  }

  /** With no call in flight `previous` is the unlocked mirror of `next`, and the head has none. */
  lemma QuietListIsMirrored(s: State)
    requires Inv(s) && forall t: Tid :: s.local(t).pc.Idle?
    ensures forall x: Item :: Linked(s, x) ==> s.status(x) == Member && !s.prev(x).locked && !s.next(x).locked
    ensures forall p: Item, z: Item :: Linked(s, p) && Linked(s, z) ==>
      (s.next(p).ptr == To(z) <==> s.prev(z).ptr == To(p))
    ensures s.head.To? ==> s.prev(s.head.item).ptr == Null
  {
    forall x: Item
      ensures !s.status(x).Pending?
      && (Linked(s, x) ==> s.status(x) == Member && !s.prev(x).locked && !s.next(x).locked) {
      assert ItemOk(s, x);
    }
    forall p: Item, z: Item | Linked(s, p) && Linked(s, z) ensures s.next(p).ptr == To(z) <==> s.prev(z).ptr == To(p) {
      assert PrevOk(s, z) && NullPrev(s, p, z);
      if s.next(p).ptr == To(z) { UniqueBefore(s, p, s.prev(z).ptr.item, z); }
    }
    if s.head.To? {
      NothingBeforeHead(s);
      assert PrevOk(s, s.head.item);
    }
  }
}
