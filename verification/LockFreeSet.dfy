/** The lock-free set of src/lock_free_set.c as a state machine: one step is one interlocked access by one thread. */
module LockFreeSet {
  import opened Memory

  type Item = nat

  datatype Ptr = Null | To(item: Item)

  /** A `previous` or `next` field: a pointer and, in bit 0, its lock. */
  datatype Link = Link(ptr: Ptr, locked: bool)

  const NULL := Link(Null, false)

  /** Where an item is in its life. No access reads it. */
  datatype Status =
    | Outside                             // not in the set; may be inserted
    | Linking(who: Tid)                    // insert was called, its head CAS has not happened
    | Fixing(who: Tid, over: Item)         // in the set; insert still has to set over->previous
    | Member                              // in the set; insert has returned
    | Leaving(who: Tid)                    // in the set; remove was called
    | Pending(who: Tid, after: Item)       // out of the set; remove still has to repair after->previous

  /** The next access of a thread, named after what it does. */
  datatype Pc =
    | Idle | Returned | Failed | Crashed
    | InsReadHead | InsClearPrev | InsSetNext | InsCasHead | InsFixPrev
    | RemReadHead
    | HeadReadNext | HeadReadPrev | HeadLockPrev | HeadLockNext | HeadCas | HeadUnlockNext | HeadFixPrev
    | UnlockPrev
    | MidReadPrev | MidLockPrev | MidReadNext | MidLockNext | MidCheckHead | MidReadPrevNext | MidUnlink
    | MidUnlockPrev | MidUnlockNext | MidReadNextPrev | MidFixPrev

  /** The locals of a call: item, item_previous, and item_next (in insert, current_head). */
  datatype Local = Local(pc: Pc, x: Item, p: Link, n: Link)

  datatype State = State(
    head: Ptr,
    prev: Item -> Link,
    next: Item -> Link,
    local: Tid -> Local,
    // history
    status: Item -> Status,
    stamp: Item -> nat,       // when the item was last linked
    clock: nat)

  // ---------- steps ----------

  function Goto(s: State, t: Tid, pc: Pc): State {
    s.(local := Put(s.local, t, s.local(t).(pc := pc)))
  }

  function GotoP(s: State, t: Tid, pc: Pc, p: Link): State {
    s.(local := Put(s.local, t, s.local(t).(pc := pc, p := p)))
  }

  function GotoN(s: State, t: Tid, pc: Pc, n: Link): State {
    s.(local := Put(s.local, t, s.local(t).(pc := pc, n := n)))
  }

  function SetPrev(s: State, i: Item, l: Link): State { s.(prev := Put(s.prev, i, l)) }
  function SetNext(s: State, i: Item, l: Link): State { s.(next := Put(s.next, i, l)) }
  function SetStatus(s: State, i: Item, st: Status): State { s.(status := Put(s.status, i, st)) }

  function Lock(l: Link): Link { l.(locked := true) }

  /** interlocked_compare_exchange_pointer on x->previous, then a jump. */
  function CasPrev(s: State, t: Tid, i: Item, was: Link, now: Link, hit: Pc, miss: Pc): State {
    if s.prev(i) == was then Goto(SetPrev(s, i, now), t, hit) else Goto(s, t, miss)
  }

  function CasNext(s: State, t: Tid, i: Item, was: Link, now: Link, hit: Pc, miss: Pc): State {
    if s.next(i) == was then Goto(SetNext(s, i, now), t, hit) else Goto(s, t, miss)
  }

  /** lock_free_set_insert */
  function InsertAccess(s: State, t: Tid): State {
    var l := s.local(t);
    match l.pc
    case InsReadHead => GotoN(s, t, InsClearPrev, Link(s.head, false))
    case InsClearPrev => Goto(SetPrev(s, l.x, NULL), t, InsSetNext)
    case InsSetNext => Goto(SetNext(s, l.x, l.n), t, InsCasHead)
    case InsCasHead =>
      if s.head != l.n.ptr then Goto(s, t, InsReadHead)
      else
        var s1 := s.(head := To(l.x), stamp := Put(s.stamp, l.x, s.clock), clock := s.clock + 1);
        if l.n.ptr == Null then Goto(SetStatus(s1, l.x, Member), t, Returned)
        else Goto(SetStatus(s1, l.x, Fixing(t, l.n.ptr.item)), t, InsFixPrev)
    case InsFixPrev =>
      if l.n.ptr == Null then Goto(s, t, Crashed)
      else if s.prev(l.n.ptr.item) == NULL
      then Goto(SetStatus(SetPrev(s, l.n.ptr.item, Link(To(l.x), false)), l.x, Member), t, Returned)
      else s
    case _ => s
  }

  /** lock_free_set_remove when the item was read as the head. */
  function RemoveHeadAccess(s: State, t: Tid): State {
    var l := s.local(t);
    match l.pc
    case RemReadHead => Goto(s, t, if s.head == To(l.x) then HeadReadNext else MidReadPrev)
    case HeadReadNext => GotoN(s, t, HeadReadPrev, s.next(l.x))
    case HeadReadPrev => GotoP(s, t, if s.prev(l.x) == NULL then HeadLockPrev else RemReadHead, s.prev(l.x))
    case HeadLockPrev =>
      CasPrev(s, t, l.x, l.p, Lock(l.p), if l.n == NULL then HeadCas else HeadLockNext, RemReadHead)
    case HeadLockNext => CasNext(s, t, l.x, l.n, Lock(l.n), HeadCas, UnlockPrev)
    case HeadCas =>
      if s.head != To(l.x) then Goto(s, t, if l.n == NULL then UnlockPrev else HeadUnlockNext)
      else
        var s1 := s.(head := l.n.ptr);
        if l.n.ptr == Null then Goto(SetStatus(s1, l.x, Outside), t, Returned)
        else Goto(SetStatus(s1, l.x, Pending(t, l.n.ptr.item)), t, HeadFixPrev)
    case HeadUnlockNext => CasNext(s, t, l.x, Lock(l.n), l.n, UnlockPrev, Failed)
    case HeadFixPrev =>
      if l.n.ptr == Null then Goto(s, t, Crashed)
      else if s.prev(l.n.ptr.item) == Link(To(l.x), false)
      then Goto(SetStatus(SetPrev(s, l.n.ptr.item, NULL), l.x, Outside), t, Returned)
      else s
    case UnlockPrev => CasPrev(s, t, l.x, Lock(l.p), l.p, RemReadHead, Failed)
    case _ => s
  }

  /** lock_free_set_remove when the item was not read as the head. */
  function RemoveMidAccess(s: State, t: Tid): State {
    var l := s.local(t);
    match l.pc
    case MidReadPrev => GotoP(s, t, if s.prev(l.x) == NULL then RemReadHead else MidLockPrev, s.prev(l.x))
    case MidLockPrev => CasPrev(s, t, l.x, l.p, Lock(l.p), MidReadNext, RemReadHead)
    case MidReadNext => GotoN(s, t, if s.next(l.x) == NULL then MidCheckHead else MidLockNext, s.next(l.x))
    case MidLockNext => CasNext(s, t, l.x, l.n, Lock(l.n), MidCheckHead, UnlockPrev)
    case MidCheckHead =>
      Goto(s, t, if s.head == To(l.x) then (if l.n == NULL then UnlockPrev else MidUnlockPrev)
                 else if l.n == NULL then MidUnlink else MidReadPrevNext)
    case MidReadPrevNext =>
      if l.p.locked || l.p.ptr == Null then Goto(s, t, Crashed)
      else Goto(s, t, if s.next(l.p.ptr.item) == Link(To(l.x), false) then MidUnlink else MidUnlockPrev)
    case MidUnlink =>
      if l.p.locked || l.p.ptr == Null then Goto(s, t, Crashed)
      else if s.next(l.p.ptr.item) != Link(To(l.x), false)
      then Goto(s, t, if l.n == NULL then UnlockPrev else MidUnlockPrev)
      else
        var s1 := SetNext(s, l.p.ptr.item, l.n);
        if l.n.ptr == Null then Goto(SetStatus(s1, l.x, Outside), t, Returned)
        else Goto(SetStatus(s1, l.x, Pending(t, l.n.ptr.item)), t, MidReadNextPrev)
    case MidUnlockPrev => CasPrev(s, t, l.x, Lock(l.p), l.p, MidUnlockNext, Failed)
    case MidUnlockNext => CasNext(s, t, l.x, Lock(l.n), l.n, RemReadHead, Failed)
    case MidReadNextPrev =>
      if l.n.ptr == Null then Goto(s, t, Crashed)
      else
        var v := s.prev(l.n.ptr.item);
        if v.locked then s
        else if v.ptr == To(l.x) then Goto(s, t, MidFixPrev)
        else if v.ptr != Null then s
        else Goto(SetStatus(s, l.x, Outside), t, Returned)
    case MidFixPrev =>
      if l.n.ptr == Null then Goto(s, t, Crashed)
      else if s.prev(l.n.ptr.item) == Link(To(l.x), false)
      then Goto(SetStatus(SetPrev(s, l.n.ptr.item, l.p), l.x, Outside), t, Returned)
      else Goto(s, t, MidReadNextPrev)
    case _ => s
  }

  /** The next access of thread t. */
  function Access(s: State, t: Tid): State {
    match s.local(t).pc
    case Returned => Goto(s, t, Idle)
    case InsReadHead | InsClearPrev | InsSetNext | InsCasHead | InsFixPrev => InsertAccess(s, t)
    case RemReadHead | HeadReadNext | HeadReadPrev | HeadLockPrev | HeadLockNext | HeadCas | HeadUnlockNext
       | HeadFixPrev | UnlockPrev => RemoveHeadAccess(s, t)
    case _ => RemoveMidAccess(s, t)
  }

  datatype Action = BeginInsert(t: Tid, x: Item) | BeginRemove(t: Tid, x: Item) | Step(t: Tid)

  /** What the caller promises: an inserted item is outside, a removed item is in, its insert has returned and
      no one else removes it. */
  ghost predicate Allowed(s: State, a: Action) {
    match a
    case BeginInsert(t, x) => s.local(t).pc == Idle && s.status(x) == Outside
    case BeginRemove(t, x) => s.local(t).pc == Idle && s.status(x) == Member
    case Step(t) => true
  }

  function Do(s: State, a: Action): State {
    match a
    case BeginInsert(t, x) => SetStatus(s.(local := Put(s.local, t, Local(InsReadHead, x, NULL, NULL))), x, Linking(t))
    case BeginRemove(t, x) => SetStatus(s.(local := Put(s.local, t, Local(RemReadHead, x, NULL, NULL))), x, Leaving(t))
    case Step(t) => Access(s, t)
  }

  ghost predicate Init(s: State) {
    && s.head == Null
    && (forall t: Tid :: s.local(t).pc == Idle)
    && (forall x: Item :: s.status(x) == Outside)
  }

  // ---------- the invariant ----------

  ghost predicate Linked(s: State, x: Item) {
    s.status(x).Fixing? || s.status(x).Member? || s.status(x).Leaving?
  }

  ghost predicate IsPending(s: State, q: Item, z: Item) {
    s.status(q).Pending? && s.status(q).after == z
  }

  /** p is the item before z in the list. */
  ghost predicate Before(s: State, p: Item, z: Item) {
    Linked(s, p) && s.next(p).ptr == To(z)
  }

  /** The links from head run through the linked items in decreasing stamp order, and skip none. */
  ghost predicate Chain(s: State) {
    && (s.head.To? ==> Linked(s, s.head.item))
    && (forall m: Item :: BelowHead(s, m))
    && (forall x: Item :: NextOk(s, x))
    && (forall x: Item, m: Item :: NoneSkipped(s, x, m))
  }

  ghost predicate BelowHead(s: State, m: Item) {
    Linked(s, m) ==> s.stamp(m) < s.clock && s.head.To? && s.stamp(m) <= s.stamp(s.head.item)
  }

  ghost predicate NextOk(s: State, x: Item) {
    Linked(s, x) && s.next(x).ptr.To? ==>
      Linked(s, s.next(x).ptr.item) && s.stamp(s.next(x).ptr.item) < s.stamp(x)
  }

  ghost predicate NoneSkipped(s: State, x: Item, m: Item) {
    Linked(s, x) && Linked(s, m) ==>
      && (s.stamp(m) < s.stamp(x) ==> s.next(x).ptr.To? && s.stamp(m) <= s.stamp(s.next(x).ptr.item))
      && (s.stamp(m) == s.stamp(x) ==> m == x)
  }

  /** An unlinked item whose removal is not finished is frozen, and the item it still has to repair is linked. */
  ghost predicate Unfinished(s: State) {
    && (forall q: Item :: Frozen(s, q))
    && (forall p: Item, q: Item :: DistinctPending(s, p, q))
  }

  ghost predicate Frozen(s: State, q: Item) {
    s.status(q).Pending? ==>
      var z := s.status(q).after;
      Linked(s, z) && s.next(q) == Link(To(z), true) && s.prev(q).locked && s.stamp(z) < s.stamp(q) < s.clock
  }

  ghost predicate DistinctPending(s: State, p: Item, q: Item) {
    s.status(q).Pending? && IsPending(s, p, s.status(q).after) && s.stamp(p) == s.stamp(q) ==> p == q
  }

  /** An insert that has not repaired over->previous yet: it is before `over`, and no `previous` names it. */
  ghost predicate Inserting(s: State) {
    && (forall x: Item :: s.status(x).Fixing? ==> Before(s, x, s.status(x).over))
    && (forall x: Item, i: Item :: Unnamed(s, x, i))
  }

  ghost predicate Unnamed(s: State, x: Item, i: Item) {
    s.status(x).Fixing? && (Linked(s, i) || s.status(i).Pending?) ==> s.prev(i).ptr != To(x)
  }

  /** a stands between z and the rest of the list: before it, or unlinked and about to repair it. */
  ghost predicate Upstream(s: State, a: Item, z: Item) {
    Before(s, a, z) || IsPending(s, a, z)
  }

  /** `previous` of a linked item leads, through unfinished removals with growing stamps, to the item before it. */
  ghost predicate Back(s: State) {
    && (forall z: Item :: PrevOk(s, z))
    && (forall q: Item :: PendingPrevOk(s, q))
    && (forall p: Item, z: Item :: NullPrev(s, p, z))
    && (forall p: Item, q: Item :: PendingBelow(s, p, q))
  }

  ghost predicate PrevOk(s: State, z: Item) {
    Linked(s, z) && s.prev(z).ptr.To? ==> Upstream(s, s.prev(z).ptr.item, z)
  }

  ghost predicate PendingPrevOk(s: State, q: Item) {
    s.status(q).Pending? && s.prev(q).ptr.To? ==>
      Upstream(s, s.prev(q).ptr.item, s.status(q).after) && s.stamp(q) < s.stamp(s.prev(q).ptr.item)
  }

  ghost predicate NullPrev(s: State, p: Item, z: Item) {
    Before(s, p, z) && Linked(s, z) && s.prev(z).ptr == Null ==> s.status(p).Fixing?
  }

  ghost predicate PendingBelow(s: State, p: Item, q: Item) {
    s.status(q).Pending? && Before(s, p, s.status(q).after) ==>
      s.stamp(q) < s.stamp(p) && (s.prev(q).ptr == Null ==> s.status(p).Fixing?)
  }

  /** No unfinished removal is left out of that path. */
  ghost predicate Path(s: State) {
    && (forall q: Item :: PathStart(s, q))
    && (forall q: Item, r: Item :: PathStep(s, q, r))
  }

  ghost predicate PathStart(s: State, q: Item) {
    s.status(q).Pending? ==>
      s.prev(s.status(q).after).ptr.To? && s.stamp(s.prev(s.status(q).after).ptr.item) <= s.stamp(q)
  }

  ghost predicate PathStep(s: State, q: Item, r: Item) {
    s.status(q).Pending? && IsPending(s, r, s.status(q).after) && s.stamp(r) < s.stamp(q) ==>
      s.prev(r).ptr.To? && s.stamp(s.prev(r).ptr.item) <= s.stamp(q)
  }

  ghost predicate PrevLocked(pc: Pc) {
    || pc.HeadLockNext? || pc.HeadCas? || pc.HeadUnlockNext? || pc.UnlockPrev? || pc.HeadFixPrev?
    || pc.MidReadNext? || pc.MidLockNext? || pc.MidCheckHead? || pc.MidReadPrevNext? || pc.MidUnlink?
    || pc.MidUnlockPrev? || pc.MidReadNextPrev? || pc.MidFixPrev?
  }

  ghost predicate NextLocked(l: Local) {
    || l.pc.HeadUnlockNext? || l.pc.HeadFixPrev? || l.pc.MidReadPrevNext? || l.pc.MidUnlockPrev?
    || l.pc.MidUnlockNext? || l.pc.MidReadNextPrev? || l.pc.MidFixPrev?
    || ((l.pc.HeadCas? || l.pc.MidCheckHead? || l.pc.MidUnlink?) && l.n != NULL)
  }

  /** item_next is known to be NULL, and stays NULL. */
  ghost predicate AtTail(l: Local) {
    l.n == NULL && (l.pc.HeadReadPrev? || l.pc.HeadLockPrev? || l.pc.HeadCas? || l.pc.MidCheckHead? || l.pc.MidUnlink?)
  }

  ghost predicate InLinking(pc: Pc) { pc.InsReadHead? || pc.InsClearPrev? || pc.InsSetNext? || pc.InsCasHead? }
  ghost predicate InPending(pc: Pc) { pc.HeadFixPrev? || pc.MidReadNextPrev? || pc.MidFixPrev? }
  ghost predicate InHead(pc: Pc) {
    pc.HeadLockPrev? || pc.HeadLockNext? || pc.HeadCas? || pc.HeadUnlockNext? || pc.HeadFixPrev?
  }
  ghost predicate InMid(pc: Pc) {
    || pc.MidReadNext? || pc.MidLockNext? || pc.MidCheckHead? || pc.MidReadPrevNext? || pc.MidUnlink?
    || pc.MidUnlockPrev? || pc.MidReadNextPrev? || pc.MidFixPrev?
  }

  ghost predicate InLeaving(pc: Pc) {
    !(pc.Idle? || pc.Returned? || pc.Failed? || pc.Crashed?) && !InLinking(pc) && !InPending(pc) && !pc.InsFixPrev?
  }

  /** What a thread knows about the item it is working on; only it changes a link it has locked. */
  ghost predicate LocalOk(s: State, t: Tid) {
    var l := s.local(t);
    && !l.pc.Failed? && !l.pc.Crashed?
    && (InLinking(l.pc) ==> s.status(l.x) == Linking(t))
    && (l.pc.InsSetNext? || l.pc.InsCasHead? ==> s.prev(l.x) == NULL)
    && ((l.pc.InsClearPrev? || l.pc.InsSetNext? || l.pc.InsCasHead?) ==> !l.n.locked)
    && (l.pc.InsCasHead? ==> s.next(l.x) == l.n)
    && (l.pc.InsFixPrev? ==> l.n.ptr.To? && s.status(l.x) == Fixing(t, l.n.ptr.item))
    && (InLeaving(l.pc) ==> s.status(l.x) == Leaving(t))
    && (InLeaving(l.pc) && !PrevLocked(l.pc) ==> !s.prev(l.x).locked)
    && (InLeaving(l.pc) && !NextLocked(l) ==> !s.next(l.x).locked)
    && (InPending(l.pc) ==> l.n.ptr.To? && s.status(l.x) == Pending(t, l.n.ptr.item))
    && (PrevLocked(l.pc) ==> !l.p.locked && s.prev(l.x) == Lock(l.p))
    && (NextLocked(l) ==> !l.n.locked && l.n.ptr.To? && s.next(l.x) == Lock(l.n))
    && (AtTail(l) ==> s.next(l.x) == NULL)
    && (InHead(l.pc) ==> l.p == NULL)
    && (l.pc.HeadReadPrev? || l.pc.HeadLockPrev? ==> !l.n.locked)
    && (l.pc.MidLockPrev? ==> !l.p.locked && l.p.ptr.To?)
    && (l.pc.MidLockNext? || l.pc.HeadLockNext? ==> !l.n.locked && l.n.ptr.To?)
    && (InMid(l.pc) ==> l.p.ptr.To?)
  }

  /** An item in the hands of a call is the item of that call; no one else holds its locks. */
  ghost predicate ItemOk(s: State, x: Item) {
    match s.status(x)
    case Outside => true
    case Linking(t) => s.local(t).x == x && InLinking(s.local(t).pc)
    case Fixing(t, z) => s.local(t).x == x && s.local(t).pc.InsFixPrev? && !s.prev(x).locked && !s.next(x).locked
    case Member => !s.prev(x).locked && !s.next(x).locked
    case Leaving(t) => s.local(t).x == x && InLeaving(s.local(t).pc)
    case Pending(t, z) => s.local(t).x == x && InPending(s.local(t).pc)
  }

  ghost predicate Held(s: State) {
    && (forall t: Tid :: LocalOk(s, t))
    && (forall x: Item :: ItemOk(s, x))
  }

  ghost predicate Inv(s: State) {
    Held(s) && Chain(s) && Unfinished(s) && Inserting(s) && Back(s) && Path(s)
  }
}
