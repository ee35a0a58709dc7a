module LockFreeSetSafety {
  import opened Memory
  import opened LockFreeSet

  /** s' differs from s only in locals, in locks of linked items and in links of items outside the set. */
  ghost predicate SameList(s: State, s': State) {
    && s'.head == s.head && s'.clock == s.clock && s'.stamp == s.stamp
    && (forall i: Item :: Linked(s', i) == Linked(s, i))
    && (forall i: Item {:trigger s'.status(i)} {:trigger s.status(i)} ::
          s.status(i).Fixing? || s.status(i).Pending? || s'.status(i).Fixing? || s'.status(i).Pending? ==>
            s'.status(i) == s.status(i))
    && (forall i: Item :: Linked(s, i) ==> s'.prev(i).ptr == s.prev(i).ptr && s'.next(i).ptr == s.next(i).ptr)
    && (forall i: Item :: s.status(i).Pending? ==> s'.prev(i) == s.prev(i) && s'.next(i) == s.next(i))
  }

  lemma SameListKeepsChain(s: State, s': State)
    requires Chain(s) && Unfinished(s) && Inserting(s) && SameList(s, s')
    ensures Chain(s') && Unfinished(s') && Inserting(s')
  {
    forall m: Item ensures BelowHead(s', m) { assert BelowHead(s, m); }
    forall x: Item ensures NextOk(s', x) { assert NextOk(s, x); }
    forall x: Item, m: Item ensures NoneSkipped(s', x, m) { assert NoneSkipped(s, x, m); }
    forall q: Item ensures Frozen(s', q) { assert Frozen(s, q); }
    forall p: Item, q: Item ensures DistinctPending(s', p, q) { assert DistinctPending(s, p, q); }
    forall x: Item, i: Item ensures Unnamed(s', x, i) { assert Unnamed(s, x, i); }
  }

  lemma SameListKeepsBack(s: State, s': State)
    requires Unfinished(s) && Back(s) && Path(s) && SameList(s, s')
    ensures Back(s') && Path(s')
  {
    forall z: Item ensures PrevOk(s', z) { assert PrevOk(s, z); }
    forall q: Item ensures PendingPrevOk(s', q) { assert PendingPrevOk(s, q); }
    forall p: Item, z: Item ensures NullPrev(s', p, z) { assert NullPrev(s, p, z); }
    forall p: Item, q: Item ensures PendingBelow(s', p, q) { assert PendingBelow(s, p, q); }
    forall q: Item ensures PathStart(s', q) { assert PathStart(s, q) && Frozen(s, q); }
    forall q: Item, r: Item ensures PathStep(s', q, r) { assert PathStep(s, q, r); }
  }

  /** Thread t changed only its own local and the links of its own item. */
  ghost predicate OwnStep(s: State, s': State, t: Tid) {
    var x := s.local(t).x;
    && s'.head == s.head && s'.clock == s.clock && s'.status == s.status && s'.stamp == s.stamp
    && s'.local(t).x == x
    && (forall u: Tid :: u != t ==> s'.local(u) == s.local(u))
    && (forall i: Item :: i != x ==> s'.prev(i) == s.prev(i) && s'.next(i) == s.next(i))
    && (s.status(x) == Linking(t) || (s.status(x) == Leaving(t) && s'.prev(x).ptr == s.prev(x).ptr
       && s'.next(x).ptr == s.next(x).ptr))
  }

  /** What the step of a thread t working on x may do to the rest: change unlocked links of linked items. */
  ghost predicate Interference(s: State, s': State, t: Tid, x: Item) {
    && (forall u: Tid :: u != t ==> s'.local(u) == s.local(u))
    && (forall i: Item :: i != x ==> Untouched(s, s', i))
  }

  ghost predicate Untouched(s: State, s': State, i: Item) {
    && s'.status(i) == s.status(i)
    && (s'.prev(i) == s.prev(i) || (Linked(s, i) && !s.prev(i).locked && !s'.prev(i).locked))
    && (s'.next(i) == s.next(i) || (Linked(s, i) && !s.next(i).locked && s.next(i) != NULL && !s'.next(i).locked))
  }

  lemma OthersKeep(s: State, s': State, t: Tid, x: Item, u: Tid)
    requires u != t && Interference(s, s', t, x) && LocalOk(s, u)
    requires s.status(x) == Linking(t) || s.status(x) == Leaving(t) || s.status(x) == Outside || s.status(x) == Member
      || (s.status(x).Fixing? && s.status(x).who == t) || (s.status(x).Pending? && s.status(x).who == t)
    ensures LocalOk(s', u)
  {
    assert s.local(u).x != x ==> Untouched(s, s', s.local(u).x);
  }

  lemma InterferenceKeeps(s: State, s': State, t: Tid, x: Item)
    requires Held(s) && Interference(s, s', t, x) && LocalOk(s', t) && ItemOk(s', x)
    requires s.local(t).pc == Idle || s.local(t).x == x
    requires s.status(x) == Linking(t) || s.status(x) == Leaving(t) || s.status(x) == Outside || s.status(x) == Member
      || (s.status(x).Fixing? && s.status(x).who == t) || (s.status(x).Pending? && s.status(x).who == t)
    ensures Held(s')
  {
    forall u: Tid ensures LocalOk(s', u) {
      if u != t { OthersKeep(s, s', t, x, u); }
    }
    forall i: Item ensures ItemOk(s', i) {
      if i != x { assert ItemOk(s, i) && Untouched(s, s', i); }
    }
  }

  lemma OwnStepKeeps(s: State, s': State, t: Tid)
    requires Held(s) && OwnStep(s, s', t) && LocalOk(s', t) && ItemOk(s', s.local(t).x)
    ensures Held(s')
  {
    InterferenceKeeps(s, s', t, s.local(t).x);
  }

  lemma OwnStepIsQuiet(s: State, s': State, t: Tid)
    requires Inv(s) && OwnStep(s, s', t)
    ensures Chain(s') && Unfinished(s') && Inserting(s') && Back(s') && Path(s')
  {
    SameListKeepsChain(s, s');
    SameListKeepsBack(s, s');
  }

  /** The accesses that only read, or that lock or unlock a link of the thread's own item. */
  ghost predicate QuietPc(pc: Pc) {
    !(pc.Idle? || pc.Returned? || pc.Failed? || pc.Crashed? || pc.InsCasHead? || pc.InsFixPrev?
      || pc.HeadCas? || pc.HeadFixPrev? || pc.MidUnlink? || pc.MidReadNextPrev? || pc.MidFixPrev?)
  }

  lemma QuietIsOwn(s: State, t: Tid)
    requires LocalOk(s, t) && QuietPc(s.local(t).pc)
    ensures OwnStep(s, Access(s, t), t)
  {
  }

  lemma QuietInsert(s: State, t: Tid)
    requires LocalOk(s, t) && (s.local(t).pc.InsReadHead? || s.local(t).pc.InsClearPrev? || s.local(t).pc.InsSetNext?)
    ensures LocalOk(Access(s, t), t) && ItemOk(Access(s, t), s.local(t).x)
  {
  }

  lemma QuietHeadRead(s: State, t: Tid)
    requires LocalOk(s, t) && (s.local(t).pc.RemReadHead? || s.local(t).pc.HeadReadNext? || s.local(t).pc.HeadReadPrev?)
    ensures LocalOk(Access(s, t), t) && ItemOk(Access(s, t), s.local(t).x)
  {
  }

  lemma QuietMidRead(s: State, t: Tid)
    requires LocalOk(s, t) && (s.local(t).pc.MidReadPrev? || s.local(t).pc.MidReadNext?)
    ensures LocalOk(Access(s, t), t) && ItemOk(Access(s, t), s.local(t).x)
  {
  }

  lemma QuietMidCheck(s: State, t: Tid)
    requires LocalOk(s, t) && (s.local(t).pc.MidCheckHead? || s.local(t).pc.MidReadPrevNext?)
    ensures LocalOk(Access(s, t), t) && ItemOk(Access(s, t), s.local(t).x)
  {
  }

  lemma QuietHeadCas(s: State, t: Tid)
    requires LocalOk(s, t)
    requires s.local(t).pc.HeadLockPrev? || s.local(t).pc.HeadLockNext? || s.local(t).pc.HeadUnlockNext?
      || s.local(t).pc.UnlockPrev?
    ensures LocalOk(Access(s, t), t) && ItemOk(Access(s, t), s.local(t).x)
  {
  }

  lemma QuietMidLock(s: State, t: Tid)
    requires LocalOk(s, t) && (s.local(t).pc.MidLockPrev? || s.local(t).pc.MidLockNext?)
    ensures LocalOk(Access(s, t), t) && ItemOk(Access(s, t), s.local(t).x)
  {
  }

  lemma QuietMidUnlock(s: State, t: Tid)
    requires LocalOk(s, t) && (s.local(t).pc.MidUnlockPrev? || s.local(t).pc.MidUnlockNext?)
    ensures LocalOk(Access(s, t), t) && ItemOk(Access(s, t), s.local(t).x)
  {
  }

  // ---------- the accesses that change the list ----------

  lemma UniqueBefore(s: State, p: Item, q: Item, z: Item)
    requires Chain(s) && Before(s, p, z) && Before(s, q, z)
    ensures p == q
  {
    assert NextOk(s, p) && NextOk(s, q) && NoneSkipped(s, p, q) && NoneSkipped(s, q, p);
  }

  lemma InsCasHeld(s: State, t: Tid)
    requires Held(s) && s.local(t).pc.InsCasHead?
    ensures Held(Access(s, t))
  {
    assert LocalOk(s, t);
    var s' := Access(s, t);
    InterferenceKeeps(s, s', t, s.local(t).x);
  }

  /** s with x in front, as the head CAS of insert leaves it. */
  ghost predicate InFront(s: State, s': State, x: Item) {
    && s'.prev == s.prev && s'.next == s.next && s'.head == To(x)
    && forall i: Item {:trigger s'.status(i)} {:trigger s'.stamp(i)} :: i != x ==>
       s'.status(i) == s.status(i) && s'.stamp(i) == s.stamp(i)
  }

  lemma InsCasChain(s: State, t: Tid)
    requires Inv(s) && s.local(t).pc.InsCasHead? && s.head == s.local(t).n.ptr
    ensures InFront(s, Access(s, t), s.local(t).x) && Chain(Access(s, t))
  {
    var s', x := Access(s, t), s.local(t).x;
    assert LocalOk(s, t) && InFront(s, s', x);
    assert s.head.To? ==> BelowHead(s, s.head.item);
    forall m: Item ensures BelowHead(s', m) { assert BelowHead(s, m); }
    forall i: Item ensures NextOk(s', i) { assert NextOk(s, i); }
    forall i: Item, m: Item ensures NoneSkipped(s', i, m) {
      assert NoneSkipped(s, i, m) && BelowHead(s, m) && BelowHead(s, i) && NextOk(s, i);
    }
  }

  lemma InsCasRest(s: State, t: Tid)
    requires Inv(s) && s.local(t).pc.InsCasHead? && s.head == s.local(t).n.ptr
    requires InFront(s, Access(s, t), s.local(t).x)
    ensures var s' := Access(s, t); Unfinished(s') && Inserting(s')
  {
    var s' := Access(s, t);
    assert LocalOk(s, t);
    assert s.head.To? ==> BelowHead(s, s.head.item);
    forall q: Item ensures Frozen(s', q) { assert Frozen(s, q); }
    forall p: Item, q: Item ensures DistinctPending(s', p, q) { assert DistinctPending(s, p, q); }
    forall y: Item, i: Item ensures Unnamed(s', y, i) {
      assert Unnamed(s, y, i) && PrevOk(s, i) && PendingPrevOk(s, i);
    }
  }

  lemma InsCasBack(s: State, t: Tid)
    requires Inv(s) && s.local(t).pc.InsCasHead? && s.head == s.local(t).n.ptr
    ensures var s' := Access(s, t); Back(s') && Path(s')
  {
    var s', x := Access(s, t), s.local(t).x;
    assert LocalOk(s, t);
    assert s'.prev == s.prev && s'.next == s.next;
    assert forall i: Item :: i != x ==> s'.status(i) == s.status(i) && s'.stamp(i) == s.stamp(i);
    forall z: Item ensures PrevOk(s', z) { assert PrevOk(s, z); }
    forall q: Item ensures PendingPrevOk(s', q) { assert PendingPrevOk(s, q); }
    forall p: Item, z: Item ensures NullPrev(s', p, z) { assert NullPrev(s, p, z) && NextOk(s, p); }
    forall p: Item, q: Item ensures PendingBelow(s', p, q) { assert PendingBelow(s, p, q) && Frozen(s, q); }
    forall q: Item ensures PathStart(s', q) {
      assert PathStart(s, q) && Frozen(s, q) && (s.status(q).Pending? ==> PrevOk(s, s.status(q).after));
    }
    forall q: Item, r: Item ensures PathStep(s', q, r) { assert PathStep(s, q, r) && PendingPrevOk(s, r); }
  }

  lemma InsFixHeld(s: State, t: Tid)
    requires Held(s) && s.local(t).pc.InsFixPrev? && Inserting(s) && Chain(s)
    ensures Held(Access(s, t))
  {
    assert LocalOk(s, t);
    var s', x, z := Access(s, t), s.local(t).x, s.local(t).n.ptr.item;
    assert Before(s, x, z) && NextOk(s, x);
    assert ItemOk(s, x);
    InterferenceKeeps(s, s', t, x);
  }

  /** prev(z) goes from was to now, x gets a new status, nothing else in the list changes. */
  ghost predicate Repaired(s: State, s': State, z: Item, now: Link, x: Item, st: Status) {
    && s'.head == s.head && s'.clock == s.clock && s'.stamp == s.stamp && s'.next == s.next
    && s'.prev(z) == now && (forall i: Item :: i != z ==> s'.prev(i) == s.prev(i))
    && s'.status(x) == st && (forall i: Item :: i != x ==> s'.status(i) == s.status(i))
  }

  lemma InsFixChain(s: State, s': State, t: Tid, x: Item, z: Item)
    requires Inv(s) && s.status(x) == Fixing(t, z) && s.prev(z) == NULL
    requires Repaired(s, s', z, Link(To(x), false), x, Member)
    ensures Chain(s') && Unfinished(s') && Inserting(s')
  {
    forall m: Item ensures BelowHead(s', m) { assert BelowHead(s, m); }
    forall i: Item ensures NextOk(s', i) { assert NextOk(s, i); }
    forall i: Item, m: Item ensures NoneSkipped(s', i, m) { assert NoneSkipped(s, i, m); }
    forall q: Item ensures Frozen(s', q) { assert Frozen(s, q) && Frozen(s, z); }
    forall p: Item, q: Item ensures DistinctPending(s', p, q) { assert DistinctPending(s, p, q); }
    forall y: Item, i: Item ensures Unnamed(s', y, i) { assert Unnamed(s, y, i); }
  }

  lemma InsFixBack(s: State, s': State, t: Tid, x: Item, z: Item)
    requires Inv(s) && s.status(x) == Fixing(t, z) && s.prev(z) == NULL
    requires Repaired(s, s', z, Link(To(x), false), x, Member)
    ensures Back(s') && Path(s')
  {
    assert Before(s, x, z) && NextOk(s, x);
    forall i: Item ensures PrevOk(s', i) { assert PrevOk(s, i); }
    forall q: Item ensures PendingPrevOk(s', q) { assert PendingPrevOk(s, q) && Frozen(s, q); }
    forall p: Item, y: Item ensures NullPrev(s', p, y) { assert NullPrev(s, p, y); }
    forall p: Item, q: Item ensures PendingBelow(s', p, q) { assert PendingBelow(s, p, q) && PathStart(s, q); }
    forall q: Item ensures PathStart(s', q) { assert PathStart(s, q); }
    forall q: Item, r: Item ensures PathStep(s', q, r) { assert PathStep(s, q, r) && Frozen(s, r); }
  }

  lemma InsFixStep(s: State, t: Tid)
    requires Inv(s) && s.local(t).pc.InsFixPrev?
    ensures Inv(Access(s, t))
  {
    InsFixHeld(s, t);
    assert LocalOk(s, t);
    var s', x, z := Access(s, t), s.local(t).x, s.local(t).n.ptr.item;
    if s.prev(z) == NULL {
      InsFixChain(s, s', t, x, z);
      InsFixBack(s, s', t, x, z);
    }
  }

  lemma RepairHeld(s: State, t: Tid)
    requires Held(s) && (s.local(t).pc.HeadFixPrev? || s.local(t).pc.MidFixPrev?) && Unfinished(s)
    ensures Held(Access(s, t))
  {
    assert LocalOk(s, t);
    var s', x, z := Access(s, t), s.local(t).x, s.local(t).n.ptr.item;
    assert Frozen(s, x);
    InterferenceKeeps(s, s', t, x);
  }

  lemma RepairChain(s: State, s': State, x: Item, z: Item)
    requires Inv(s) && IsPending(s, x, z) && s.prev(z) == Link(To(x), false)
    requires Repaired(s, s', z, Link(s.prev(x).ptr, false), x, Outside)
    ensures Chain(s') && Unfinished(s') && Inserting(s')
  {
    forall m: Item ensures BelowHead(s', m) { assert BelowHead(s, m); }
    forall i: Item ensures NextOk(s', i) { assert NextOk(s, i) && Frozen(s, x); }
    forall i: Item, m: Item ensures NoneSkipped(s', i, m) { assert NoneSkipped(s, i, m); }
    forall q: Item ensures Frozen(s', q) { assert Frozen(s, q) && Frozen(s, x); }
    forall p: Item, q: Item ensures DistinctPending(s', p, q) { assert DistinctPending(s, p, q); }
    forall y: Item, i: Item ensures Unnamed(s', y, i) { assert Unnamed(s, y, i) && Unnamed(s, y, x); }
  }

  lemma RepairBack(s: State, s': State, x: Item, z: Item)
    requires Inv(s) && IsPending(s, x, z) && s.prev(z) == Link(To(x), false)
    requires Repaired(s, s', z, Link(s.prev(x).ptr, false), x, Outside)
    ensures Back(s') && Path(s')
  {
    assert Frozen(s, x) && PendingPrevOk(s, x);
    forall i: Item ensures PrevOk(s', i) { assert PrevOk(s, i); }
    forall q: Item ensures PendingPrevOk(s', q) { assert PendingPrevOk(s, q) && PathStart(s, q) && Frozen(s, q); }
    forall p: Item, y: Item ensures NullPrev(s', p, y) { assert NullPrev(s, p, y) && PendingBelow(s, p, x); }
    forall p: Item, q: Item ensures PendingBelow(s', p, q) { assert PendingBelow(s, p, q) && Frozen(s, q); }
    forall q: Item ensures PathStart(s', q) { assert PathStart(s, q) && PathStep(s, q, x) && DistinctPending(s, x, q); }
    forall q: Item, r: Item ensures PathStep(s', q, r) { assert PathStep(s, q, r) && Frozen(s, r); }
  }

  lemma RepairStep(s: State, t: Tid)
    requires Inv(s) && (s.local(t).pc.HeadFixPrev? || s.local(t).pc.MidFixPrev?)
    ensures Inv(Access(s, t))
  {
    RepairHeld(s, t);
    assert LocalOk(s, t);
    var s', x, z := Access(s, t), s.local(t).x, s.local(t).n.ptr.item;
    if s.prev(z) == Link(To(x), false) {
      RepairChain(s, s', x, z);
      RepairBack(s, s', x, z);
    } else {
      SameListKeepsChain(s, s');
      SameListKeepsBack(s, s');
    }
  }

  /** The "already repaired" exit of remove is never taken. */
  lemma NextPrevNeverNull(s: State, t: Tid)
    requires Inv(s) && s.local(t).pc.MidReadNextPrev?
    ensures s.local(t).n.ptr.To? && s.prev(s.local(t).n.ptr.item) != NULL
    ensures Inv(Access(s, t))
  {
    assert LocalOk(s, t) && ItemOk(s, s.local(t).x);
    assert PathStart(s, s.local(t).x);
    var s' := Access(s, t);
    InterferenceKeeps(s, s', t, s.local(t).x);
    SameListKeepsChain(s, s');
    SameListKeepsBack(s, s');
  }

  lemma LastCasHeld(s: State, t: Tid)
    requires Held(s) && s.local(t).pc.HeadCas?
    ensures Held(Access(s, t))
  {
    assert LocalOk(s, t);
    InterferenceKeeps(s, Access(s, t), t, s.local(t).x);
  }

  /** x leaves the chain with status st, and head or a `next` skips it. */
  ghost predicate Skipped(s: State, s': State, x: Item, st: Status) {
    && s'.clock == s.clock && s'.stamp == s.stamp && s'.prev == s.prev
    && s'.status(x) == st && (forall i: Item :: i != x ==> s'.status(i) == s.status(i))
    && (if s.head == To(x) then s'.head == s.next(x).ptr && s'.next == s.next
        else
          && s'.head == s.head && s.prev(x).ptr.To?
          && s.next(s.prev(x).ptr.item) == Link(To(x), false)
          && s'.next(s.prev(x).ptr.item) == Link(s.next(x).ptr, false)
          && (forall i: Item :: i != s.prev(x).ptr.item ==> s'.next(i) == s.next(i)))
  }

  /** x may be unlinked now: it is locked by its remover, and it is the head or `previous` leads to it. */
  ghost predicate Removable(s: State, t: Tid, x: Item) {
    && s.status(x) == Leaving(t)
    && (s.next(x) == NULL || s.next(x).locked)
    && s.prev(x).locked
    && (s.head == To(x) ==> s.prev(x).ptr == Null)
  }

  function AfterUnlink(s: State, t: Tid, x: Item): Status {
    if s.next(x).ptr == Null then Outside else Pending(t, s.next(x).ptr.item)
  }

  /** Nothing is about to repair x, and the item before it, if any, is settled. */
  lemma NothingUpstream(s: State, s': State, t: Tid, x: Item)
    requires Inv(s) && Removable(s, t, x) && Skipped(s, s', x, AfterUnlink(s, t, x))
    ensures forall q: Item {:trigger s.status(q)} :: s.status(q).Pending? ==> s.status(q).after != x
    ensures s.head == To(x) ==> forall p: Item {:trigger Before(s, p, x)} :: !Before(s, p, x)
    ensures s.head != To(x) ==>
      s.prev(x).ptr.To? && Before(s, s.prev(x).ptr.item, x) && !s.status(s.prev(x).ptr.item).Fixing?
  {
    assert PrevOk(s, x);
    if s.head != To(x) {
      assert Frozen(s, s.prev(x).ptr.item) && Unnamed(s, s.prev(x).ptr.item, x);
    }
    forall q: Item | s.status(q).Pending? ensures s.status(q).after != x {
      assert PathStart(s, q);
      if s.head != To(x) { assert PendingBelow(s, s.prev(x).ptr.item, q); }
    }
    forall p: Item | s.head == To(x) ensures !Before(s, p, x) {
      assert BelowHead(s, p) && NextOk(s, p);
    }
  }

  lemma UnlinkChain(s: State, s': State, t: Tid, x: Item)
    requires Inv(s) && Removable(s, t, x) && Skipped(s, s', x, AfterUnlink(s, t, x))
    ensures Chain(s')
  {
    NothingUpstream(s, s', t, x);
    assert NextOk(s, x);
    if s.head != To(x) { assert BelowHead(s, s.prev(x).ptr.item) && NextOk(s, s.prev(x).ptr.item); }
    forall m: Item ensures BelowHead(s', m) { assert BelowHead(s, m) && NoneSkipped(s, x, m); }
    forall i: Item ensures NextOk(s', i) {
      assert NextOk(s, i);
      if Before(s, i, x) { UniqueBefore(s, i, s.prev(x).ptr.item, x); }
    }
    forall i: Item, m: Item ensures NoneSkipped(s', i, m) { assert NoneSkipped(s, i, m) && NoneSkipped(s, x, m); }
  }

  lemma UnlinkPending(s: State, s': State, t: Tid, x: Item)
    requires Inv(s) && Removable(s, t, x) && Skipped(s, s', x, AfterUnlink(s, t, x))
    ensures Unfinished(s') && Inserting(s')
  {
    NothingUpstream(s, s', t, x);
    assert NextOk(s, x) && BelowHead(s, x);
    forall q: Item ensures Frozen(s', q) { assert Frozen(s, q); }
    forall p: Item, q: Item ensures DistinctPending(s', p, q) {
      assert DistinctPending(s, p, q) && PendingBelow(s, x, p) && PendingBelow(s, x, q);
    }
    forall y: Item, i: Item ensures Unnamed(s', y, i) { assert Unnamed(s, y, i); }
    forall y: Item | s'.status(y).Fixing? ensures Before(s', y, s'.status(y).over) {
      assert Before(s, y, s.status(y).over);
    }
  }

  /** What stood upstream of an item still does: x only changes from being before it to being about to repair it. */
  lemma UnlinkUpstream(s: State, s': State, t: Tid, x: Item, a: Item, w: Item)
    requires Inv(s) && Removable(s, t, x) && Skipped(s, s', x, AfterUnlink(s, t, x))
    requires w != x && Upstream(s, a, w)
    ensures Upstream(s', a, w)
  {
    NothingUpstream(s, s', t, x);
  }

  /** After the unlink the item before w is the one before, or w is the item after x and it is the one before x. */
  lemma UnlinkBefore(s: State, s': State, t: Tid, x: Item, p: Item, w: Item)
    requires Inv(s) && Removable(s, t, x) && Skipped(s, s', x, AfterUnlink(s, t, x)) && Before(s', p, w)
    ensures p != x && (s.next(x).ptr == To(w) ==> s.prev(x).ptr == To(p))
    ensures s.next(x).ptr != To(w) ==> Before(s, p, w)
  {
    NothingUpstream(s, s', t, x);
    if s.next(x).ptr == To(w) && Before(s, p, w) { UniqueBefore(s, p, x, w); }
  }

  lemma UnlinkBack(s: State, s': State, t: Tid, x: Item)
    requires Inv(s) && Removable(s, t, x) && Skipped(s, s', x, AfterUnlink(s, t, x))
    ensures Back(s')
  {
    NothingUpstream(s, s', t, x);
    assert NextOk(s, x);
    if s.head != To(x) { assert NextOk(s, s.prev(x).ptr.item); }
    forall z: Item ensures PrevOk(s', z) {
      assert PrevOk(s, z);
      if Linked(s', z) && s.prev(z).ptr.To? { UnlinkUpstream(s, s', t, x, s.prev(z).ptr.item, z); }
    }
    forall q: Item ensures PendingPrevOk(s', q) {
      assert PendingPrevOk(s, q);
      if s.status(q).Pending? && s.prev(q).ptr.To? {
        UnlinkUpstream(s, s', t, x, s.prev(q).ptr.item, s.status(q).after);
      }
    }
    forall p: Item, z: Item ensures NullPrev(s', p, z) {
      assert NullPrev(s, p, z) && NullPrev(s, x, z);
      if Before(s', p, z) { UnlinkBefore(s, s', t, x, p, z); }
    }
    forall p: Item, q: Item ensures PendingBelow(s', p, q) {
      assert PendingBelow(s, p, q) && PendingBelow(s, x, q);
      if s'.status(q).Pending? && Before(s', p, s'.status(q).after) {
        UnlinkBefore(s, s', t, x, p, s'.status(q).after);
      }
    }
  }

  /** Whatever is upstream of the item after x is x or something older. */
  lemma UpstreamOfNext(s: State, x: Item, a: Item, z: Item)
    requires Inv(s) && Before(s, x, z) && Upstream(s, a, z)
    ensures s.stamp(a) <= s.stamp(x)
  {
    if Before(s, a, z) { UniqueBefore(s, a, x, z); } else { assert PendingBelow(s, x, a); }
  }

  lemma UnlinkPath(s: State, s': State, t: Tid, x: Item)
    requires Inv(s) && Removable(s, t, x) && Skipped(s, s', x, AfterUnlink(s, t, x))
    ensures Path(s')
  {
    NothingUpstream(s, s', t, x);
    assert NextOk(s, x);
    forall q: Item ensures PathStart(s', q) {
      assert PathStart(s, q);
      if q == x && s'.status(q).Pending? {
        var z := s'.status(q).after;
        assert NullPrev(s, x, z) && PrevOk(s, z);
        UpstreamOfNext(s, x, s.prev(z).ptr.item, z);
      }
    }
    forall q: Item, r: Item ensures PathStep(s', q, r) {
      assert PathStep(s, q, r) && PendingBelow(s, x, q) && PendingBelow(s, x, r) && PendingPrevOk(s, r);
      if q == x && r != x && s'.status(x).Pending? && IsPending(s', r, s'.status(x).after) {
        UpstreamOfNext(s, x, s.prev(r).ptr.item, s'.status(x).after);
      }
    }
  }

  lemma MidUnlinkHeld(s: State, t: Tid)
    requires Held(s) && s.local(t).pc.MidUnlink? && s.local(t).p.ptr.To? && Linked(s, s.local(t).p.ptr.item)
    ensures Held(Access(s, t))
  {
    assert LocalOk(s, t);
    assert s.local(t).p.ptr.item != s.local(t).x ==> Untouched(s, Access(s, t), s.local(t).p.ptr.item);
    InterferenceKeeps(s, Access(s, t), t, s.local(t).x);
  }

  lemma UnlinkKeeps(s: State, s': State, t: Tid, x: Item)
    requires Inv(s) && Held(s') && Removable(s, t, x) && Skipped(s, s', x, AfterUnlink(s, t, x))
    ensures Inv(s')
  {
    UnlinkChain(s, s', t, x);
    UnlinkPending(s, s', t, x);
    UnlinkBack(s, s', t, x);
    UnlinkPath(s, s', t, x);
  }

  lemma HeadCasStep(s: State, t: Tid)
    requires Inv(s) && s.local(t).pc.HeadCas?
    ensures Inv(Access(s, t))
    ensures s.head == To(s.local(t).x) ==>
      Removable(s, t, s.local(t).x) && Skipped(s, Access(s, t), s.local(t).x, AfterUnlink(s, t, s.local(t).x))
  {
    LastCasHeld(s, t);
    var s', x := Access(s, t), s.local(t).x;
    assert LocalOk(s, t);
    if s.head == To(x) {
      UnlinkKeeps(s, s', t, x);
    } else {
      SameListKeepsChain(s, s');
      SameListKeepsBack(s, s');
    }
  }

  /** A neighbour reached through a locked `previous` is still in the set, or waits to repair this very item. */
  lemma MidPrevUpstream(s: State, t: Tid)
    requires Inv(s) && (s.local(t).pc.MidReadPrevNext? || s.local(t).pc.MidUnlink?)
    ensures s.local(t).p.ptr.To? && Upstream(s, s.local(t).p.ptr.item, s.local(t).x)
    ensures s.next(s.local(t).p.ptr.item) == Link(To(s.local(t).x), false) ==>
      Before(s, s.local(t).p.ptr.item, s.local(t).x)
  {
    assert LocalOk(s, t) && PrevOk(s, s.local(t).x) && Frozen(s, s.local(t).p.ptr.item);
  }

  lemma MidUnlinkStep(s: State, t: Tid)
    requires Inv(s) && s.local(t).pc.MidUnlink?
    ensures Inv(Access(s, t)) && s.local(t).p.ptr.To?
    ensures s.next(s.local(t).p.ptr.item) == Link(To(s.local(t).x), false) ==>
      Removable(s, t, s.local(t).x) && Skipped(s, Access(s, t), s.local(t).x, AfterUnlink(s, t, s.local(t).x))
  {
    MidPrevUpstream(s, t);
    var s', x, p := Access(s, t), s.local(t).x, s.local(t).p.ptr.item;
    assert LocalOk(s, t);
    if s.next(p) == Link(To(x), false) {
      MidUnlinkHeld(s, t);
      assert NextOk(s, p) && BelowHead(s, p);
      UnlinkKeeps(s, s', t, x);
    } else {
      InterferenceKeeps(s, s', t, x);
      SameListKeepsChain(s, s');
      SameListKeepsBack(s, s');
    }
  }

  lemma QuietStep(s: State, t: Tid)
    requires Inv(s) && QuietPc(s.local(t).pc)
    ensures Inv(Access(s, t)) && SameList(s, Access(s, t))
  {
    assert LocalOk(s, t);
    QuietIsOwn(s, t);
    var pc := s.local(t).pc;
    if pc.InsReadHead? || pc.InsClearPrev? || pc.InsSetNext? { QuietInsert(s, t); }
    else if pc.RemReadHead? || pc.HeadReadNext? || pc.HeadReadPrev? { QuietHeadRead(s, t); }
    else if pc.MidReadPrev? || pc.MidReadNext? { QuietMidRead(s, t); }
    else if pc.MidCheckHead? || pc.MidReadPrevNext? { QuietMidCheck(s, t); }
    else if pc.HeadLockPrev? || pc.HeadLockNext? || pc.HeadUnlockNext? || pc.UnlockPrev? { QuietHeadCas(s, t); }
    else if pc.MidLockPrev? || pc.MidLockNext? { QuietMidLock(s, t); }
    else { QuietMidUnlock(s, t); }
    OwnStepKeeps(s, Access(s, t), t);
    OwnStepIsQuiet(s, Access(s, t), t);
  }

  lemma InsCasStep(s: State, t: Tid)
    requires Inv(s) && s.local(t).pc.InsCasHead?
    ensures Inv(Access(s, t))
  {
    InsCasHeld(s, t);
    if s.head == s.local(t).n.ptr {
      InsCasChain(s, t);
      InsCasRest(s, t);
      InsCasBack(s, t);
    } else {
      SameListKeepsChain(s, Access(s, t));
      SameListKeepsBack(s, Access(s, t));
    }
  }

  lemma IdleStep(s: State, t: Tid)
    requires Inv(s) && (s.local(t).pc.Idle? || s.local(t).pc.Returned?)
    ensures Inv(Access(s, t))
  {
    var s' := Access(s, t);
    forall u: Tid ensures LocalOk(s', u) { assert LocalOk(s, u); }
    forall x: Item ensures ItemOk(s', x) { assert ItemOk(s, x); }
    SameListKeepsChain(s, s');
    SameListKeepsBack(s, s');
  }

  /** One access by any thread keeps the invariant. */
  lemma AccessKeeps(s: State, t: Tid)
    requires Inv(s)
    ensures Inv(Access(s, t))
  {
    var pc := s.local(t).pc;
    assert LocalOk(s, t);
    if QuietPc(pc) { QuietStep(s, t); }
    else if pc.Idle? || pc.Returned? { IdleStep(s, t); }
    else if pc.InsCasHead? { InsCasStep(s, t); }
    else if pc.InsFixPrev? { InsFixStep(s, t); }
    else if pc.HeadCas? { HeadCasStep(s, t); }
    else if pc.MidUnlink? { MidUnlinkStep(s, t); }
    else if pc.MidReadNextPrev? { NextPrevNeverNull(s, t); }
    else { RepairStep(s, t); }
  }

  lemma BeginKeeps(s: State, a: Action)
    requires Inv(s) && !a.Step? && Allowed(s, a)
    ensures Inv(Do(s, a))
  {
    var s' := Do(s, a);
    assert ItemOk(s, a.x);
    InterferenceKeeps(s, s', a.t, a.x);
    assert forall i: Item :: i != a.x ==> s'.status(i) == s.status(i);
    SameListKeepsChain(s, s');
    SameListKeepsBack(s, s');
  }
}
