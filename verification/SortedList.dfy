/** The lock-free sorted list of src/clds_sorted_list.c as a state machine: one step is one interlocked access, one
    plain store to an item, or one callback, by one thread. `previous_item == NULL` is the location Head, so the two
    copies of each CAS in the source are one step here. */
module SortedList {
  import opened Memory

  type Node = nat

  /** Keys with the order given by key_compare_cb. */
  type Key = int

  datatype Ptr = Null | To(node: Node)

  /** A `next` field: a pointer and, in bit 0, the delete lock. */
  datatype Link = Link(ptr: Ptr, marked: bool)

  /** current_item_address */
  datatype Loc = Head | NextOf(node: Node)

  /** compare_item_by_key or compare_item_by_ptr, with its target. */
  datatype Goal = KeyIs(key: Key) | ItemIs(node: Node)

  datatype Op =
    | Nothing
    | Insert(item: Node)
    | Delete(goal: Goal)
    | Remove(goal: Goal)
    | SetValue(item: Node, onlyIfExists: bool)
    | Find(goal: Goal)

  datatype Result = None | Done | DoneOld(was: Ptr) | Found(node: Node) | NotFound | Exists | NotMet | Error

  /** Where a node is in its life. No access reads it. */
  datatype Status =
    | Unused
    | Loose                 // created, not in the list, in no call
    | Offered(who: Tid)     // given to an insert or set_value that has not linked it
    | Linked
    | Taken(who: Tid)       // unlinked, not yet given to clds_hazard_pointers_reclaim
    | Retired               // given to clds_hazard_pointers_reclaim
    | Reclaimed             // reclaim_list_node ran

  /** The thread whose CAS set the delete lock. */
  datatype Marker = NoOne | By(who: Tid)

  /** The next step of a thread, named after what it does. */
  datatype Pc =
    | Idle | DrawFirst | Read | Check | Store | LinkCas
    | ReadNext | Mark | DrawMarked | Unlink | Unmark | Skip
    | CheckSeq | DropSeq | Redraw | UnmarkSame | StoreOver | Replace
    | TakeRef | Retire | Return

  /** The locals of a call; `holds` says that seq was drawn and is neither skipped nor used yet. */
  datatype Local = Local(pc: Pc, op: Op, at: Loc, cur: Node, nxt: Ptr, seqNo: int, holds: bool, res: Result)

  datatype State = State(
    head: Ptr,
    next: Node -> Link,
    key: Node -> Key,
    refs: Node -> int,
    seqNo: int,
    local: Tid -> Local,
    skipped: multiset<int>,        // the numbers given to skipped_seq_no_cb
    // history
    used: multiset<int>,           // the numbers of the operations that took effect
    start: int,                    // the counter when the list was created
    holder: map<int, Tid>,         // who drew each number
    created: nat,
    status: Node -> Status,
    marker: Node -> Marker,
    putSeq: Node -> int,           // the number of the operation that put the node in
    handles: Node -> int,          // references owned by callers
    cleanups: Node -> int)         // how often the cleanup callback ran

  /** What the step may find outside the list: memory for a hazard pointer, and the answer of condition_check_func. */
  datatype Verdict = CondOk | CondNotMet | CondError
  datatype Env = Env(hazardOk: bool, verdict: Verdict)

  function LinkAt(s: State, at: Loc): Link {
    match at case Head => Link(s.head, false) case NextOf(n) => s.next(n)
  }

  function SetLink(s: State, at: Loc, p: Ptr): State {
    match at case Head => s.(head := p) case NextOf(n) => s.(next := Put(s.next, n, Link(p, false)))
  }

  function Run(s: State, t: Tid, l: Local): State { s.(local := Put(s.local, t, l)) }

  function Restart(l: Local): Local { l.(pc := Read, at := Head) }

  function Fail(l: Local, r: Result): Local { l.(pc := Return, res := r) }

  function SetStatus(s: State, n: Node, st: Status): State { s.(status := Put(s.status, n, st)) }

  predicate Inserts(op: Op) { op.Insert? || op.SetValue? }

  datatype Order = Match | Stop | Advance

  function GoalKey(s: State, op: Op): Key {
    match op
    case Insert(i) => s.key(i)
    case SetValue(i, _) => s.key(i)
    case Delete(KeyIs(k)) => k
    case Remove(KeyIs(k)) => k
    case Find(KeyIs(k)) => k
    case Delete(ItemIs(n)) => s.key(n)
    case Remove(ItemIs(n)) => s.key(n)
    case Find(ItemIs(n)) => s.key(n)
    case Nothing => 0
  }

  predicate ByItem(op: Op) { (op.Delete? || op.Remove? || op.Find?) && op.goal.ItemIs? }

  /** Insert and set_value stop at the first larger key; the others walk on to the end. */
  function Compare(s: State, op: Op, cur: Node): Order {
    if ByItem(op) then (if cur == op.goal.node then Match else Advance)
    else if s.key(cur) == GoalKey(s, op) then Match
    else if Inserts(op) && GoalKey(s, op) < s.key(cur) then Stop
    else Advance
  }

  /** interlocked_increment_64 on the shared counter. */
  function Draw(s: State, t: Tid, pc: Pc): State {
    var n := s.seqNo + 1;
    Run(s, t, s.local(t).(pc := pc, seqNo := n, holds := true)).(seqNo := n, holder := s.holder[n := t])
  }

  /** skipped_seq_no_cb */
  function SkipSeq(s: State, t: Tid, l: Local): State {
    Run(s, t, l.(holds := false)).(skipped := s.skipped + multiset{l.seqNo})
  }

  /** The operation of t takes effect under its number. */
  function UseSeq(s: State, t: Tid, l: Local): State {
    Run(s, t, l.(holds := false)).(used := s.used + multiset{l.seqNo})
  }

  /** The caller's reference of the item becomes the reference of the list. */
  function PutIn(s: State, i: Node, seqNo: int): State {
    SetStatus(s, i, Linked).(putSeq := Put(s.putSeq, i, seqNo), handles := Put(s.handles, i, s.handles(i) - 1))
  }

  function NextOp(op: Op): Pc { if op.SetValue? then CheckSeq else DrawMarked }

  /** The walk from head: read *current_item_address, publish a hazard pointer, read it again, compare. */
  function Traverse(s: State, l: Local, e: Env): Local {
    if l.pc.Read? then
      var p := LinkAt(s, l.at).ptr;
      if p.Null? then
        if Inserts(l.op) && !(l.op.SetValue? && l.op.onlyIfExists) then l.(pc := Store, nxt := Null)
        else Fail(l, NotFound)
      else l.(pc := Check, cur := p.node)
    else if !e.hazardOk then Fail(l, Error)
    else if LinkAt(s, l.at) != Link(To(l.cur), false) then Restart(l)
    else Visit(l, Compare(s, l.op, l.cur), e)
  }

  /** cur is protected and compared. */
  function Visit(l: Local, order: Order, e: Env): Local {
    match order
    case Match =>
      if l.op.Insert? then Fail(l, Exists)
      else if l.op.Find? then l.(pc := TakeRef, res := Found(l.cur))
      else if l.op.SetValue? && e.verdict.CondError? then Fail(l, Error)
      else if l.op.SetValue? && e.verdict.CondNotMet? then Fail(l, NotMet)
      else l.(pc := ReadNext)
    case Stop =>
      if l.op.SetValue? && l.op.onlyIfExists then Fail(l, NotFound)
      else l.(pc := Store, nxt := To(l.cur))
    case Advance => l.(pc := Read, at := NextOf(l.cur))
  }

  function InsertAt(s: State, t: Tid): State
    requires Inserts(s.local(t).op)
  {
    var l := s.local(t);
    if l.pc.Store? then Run(s.(next := Put(s.next, l.op.item, Link(l.nxt, false))), t, l.(pc := LinkCas))
    else if LinkAt(s, l.at) != Link(l.nxt, false) then Run(s, t, Restart(l))
    else UseSeq(PutIn(SetLink(s, l.at, To(l.op.item)), l.op.item, l.seqNo), t,
                l.(pc := Return, res := if l.op.Insert? then Done else DoneOld(Null)))
  }

  /** Set the delete lock of cur, and give it back. */
  function Locking(s: State, t: Tid): State {
    var l := s.local(t);
    if l.pc.ReadNext? then Run(s, t, l.(pc := Mark, nxt := s.next(l.cur).ptr))
    else if l.pc.Mark? then
      if s.next(l.cur) != Link(l.nxt, false) then Run(s, t, Restart(l))
      else Run(s.(next := Put(s.next, l.cur, Link(l.nxt, true)), marker := Put(s.marker, l.cur, By(t))), t,
        l.(pc := NextOp(l.op)))
    else if s.next(l.cur) != Link(l.nxt, true) then Run(s, t, if l.op.SetValue? then Fail(l, Error) else l.(pc := Skip))
    else
      Run(s.(next := Put(s.next, l.cur, Link(l.nxt, false)), marker := Put(s.marker, l.cur, NoOne)), t,
          if l.op.SetValue? then Restart(l) else l.(pc := Skip))
  }

  function UnlinkCas(s: State, t: Tid): State {
    var l := s.local(t);
    if LinkAt(s, l.at) != Link(To(l.cur), false) then Run(s, t, l.(pc := Unmark))
    else
      UseSeq(SetStatus(SetLink(s, l.at, l.nxt), l.cur, Taken(t)).(marker := Put(s.marker, l.cur, NoOne)), t,
             if l.op.Remove? then l.(pc := TakeRef, res := DoneOld(To(l.cur))) else l.(pc := Retire, res := Done))
  }

  function AfterSeq(l: Local): Pc
    requires l.op.SetValue?
  {
    if l.cur == l.op.item then UnmarkSame else StoreOver
  }

  function SetOver(s: State, t: Tid): State
    requires s.local(t).op.SetValue?
  {
    var l := s.local(t);
    match l.pc
    case CheckSeq => Run(s, t, l.(pc := if s.seqNo != l.seqNo then DropSeq else AfterSeq(l)))
    case DropSeq => SkipSeq(s, t, l.(pc := Redraw))
    case Redraw => Draw(s, t, AfterSeq(l))
    case UnmarkSame =>
      if s.next(l.cur) != Link(l.nxt, true) then Run(s, t, Fail(l, Error))
      else
        UseSeq(s.(next := Put(s.next, l.cur, Link(l.nxt, false)), marker := Put(s.marker, l.cur, NoOne),
                  putSeq := Put(s.putSeq, l.cur, l.seqNo)), t, l.(pc := Return, res := DoneOld(To(l.cur))))
    case StoreOver => Run(s.(next := Put(s.next, l.op.item, Link(l.nxt, false))), t, l.(pc := Replace))
    case Replace =>
      if LinkAt(s, l.at) != Link(To(l.cur), false) then Run(s, t, l.(pc := Unmark))
      else
        UseSeq(PutIn(SetStatus(SetLink(s, l.at, To(l.op.item)), l.cur, Taken(t)), l.op.item, l.seqNo)
                 .(marker := Put(s.marker, l.cur, NoOne)), t, l.(pc := TakeRef, res := DoneOld(To(l.cur))))
    case _ => s
  }

  predicate Failure(r: Result) { r.NotFound? || r.Exists? || r.NotMet? || r.Error? }

  function Finish(s: State, t: Tid): State {
    var l := s.local(t);
    match l.pc
    case TakeRef =>
      Run(s.(refs := Put(s.refs, l.cur, s.refs(l.cur) + 1), handles := Put(s.handles, l.cur, s.handles(l.cur) + 1)), t,
          l.(pc := if l.op.Find? then Return else Retire))
    case Retire => Run(SetStatus(s, l.cur, Retired), t, l.(pc := Return))
    case Return =>
      if Inserts(l.op) && Failure(l.res)
      then SkipSeq(if s.status(l.op.item) == Offered(t) then SetStatus(s, l.op.item, Loose)
        else s, t, l.(pc := Idle, op := Nothing))
      else Run(s, t, l.(pc := Idle, op := Nothing))
    case _ => s
  }

  /** The next step of thread t. */
  function Step(s: State, t: Tid, e: Env): State {
    var l := s.local(t);
    match l.pc
    case DrawFirst => Draw(s, t, Read)
    case Read | Check => Run(s, t, Traverse(s, l, e))
    case Store | LinkCas => if Inserts(l.op) then InsertAt(s, t) else s
    case ReadNext | Mark | Unmark => Locking(s, t)
    case DrawMarked => Draw(s, t, Unlink)
    case Unlink => UnlinkCas(s, t)
    case Skip => SkipSeq(s, t, Restart(l))
    case CheckSeq | DropSeq | Redraw | UnmarkSame | StoreOver | Replace => if l.op.SetValue? then SetOver(s, t) else s
    case TakeRef | Retire | Return => Finish(s, t)
    case Idle => s
  }

  datatype Action =
    | Create(key: Key)
    | Begin(t: Tid, op: Op)
    | Move(t: Tid, env: Env)
    | AddRef(n: Node)            // clds_sorted_list_node_inc_ref by a caller
    | DropRef(n: Node)           // clds_sorted_list_node_release by a caller
    | Reclaim(n: Node)           // the hazard pointers instance calls reclaim_list_node

  /** interlocked_decrement on ref_count, and the cleanup callback at zero. */
  function DropOne(s: State, n: Node): State {
    s.(refs := Put(s.refs, n, s.refs(n) - 1),
       cleanups := if s.refs(n) == 1 then Put(s.cleanups, n, s.cleanups(n) + 1) else s.cleanups)
  }

  function Do(s: State, a: Action): State {
    match a
    case Create(k) =>
      var n := s.created;
      SetStatus(s, n, Loose).(created := n + 1, key := Put(s.key, n, k), next := Put(s.next, n, Link(Null, false)),
                              refs := Put(s.refs, n, 1), handles := Put(s.handles, n, 1))
    case Begin(t, op) =>
      var l := Local(if Inserts(op) then DrawFirst else Read, op, Head, 0, Null, 0, false, None);
      Run(if Inserts(op) && s.status(op.item).Loose? then SetStatus(s, op.item, Offered(t)) else s, t, l)
    case Move(t, e) => Step(s, t, e)
    case AddRef(n) => s.(refs := Put(s.refs, n, s.refs(n) + 1), handles := Put(s.handles, n, s.handles(n) + 1))
    case DropRef(n) => DropOne(s.(handles := Put(s.handles, n, s.handles(n) - 1)), n)
    case Reclaim(n) => DropOne(SetStatus(s, n, Reclaimed), n)
  }

  /** The nodes a thread holds a validated hazard pointer for. */
  predicate Protects(l: Local, n: Node) {
    || (l.at == NextOf(n) && (Traversing(l.pc) || InserterAt(l.pc) || HasCur(l.pc)))
    || (l.cur == n && (HasCur(l.pc) || (l.pc.TakeRef? && l.op.Find?)))
    || (l.nxt == To(n) && InserterAt(l.pc))
  }

  predicate Traversing(pc: Pc) { pc.Read? || pc.Check? }
  predicate InserterAt(pc: Pc) { pc.Store? || pc.LinkCas? }
  predicate HasCur(pc: Pc) { pc.ReadNext? || pc.Mark? || HasMark(pc) }
  predicate HasMark(pc: Pc) {
    || pc.DrawMarked? || pc.Unlink? || pc.Unmark? || pc.CheckSeq? || pc.DropSeq? || pc.Redraw? || pc.UnmarkSame?
    || pc.StoreOver? || pc.Replace?
  }

  /** What callers and the hazard pointers promise: a reference is dropped by one who has it, an item is given to
      one insert or set_value while it is not in the list (set_value also accepts the item that is in it, which
      then stays there until its `next` would be overwritten), and a protected node is not reclaimed. */
  ghost predicate Allowed(s: State, a: Action) {
    match a
    case Create(k) => true
    case Begin(t, op) =>
      && s.local(t).pc.Idle? && !op.Nothing?
      && (Inserts(op) ==>
         s.handles(op.item) > 0 && (s.status(op.item).Loose? || (op.SetValue? && s.status(op.item).Linked?)))
      && ((op.Remove? || op.Find?) ==> op.goal.KeyIs?)
      && (ByItem(op) ==> op.goal.node < s.created)
    case Move(t, e) =>
      (s.local(t).pc.Store? || s.local(t).pc.StoreOver?) && Inserts(s.local(t).op) ==>
        s.status(s.local(t).op.item) == Offered(t)
    case AddRef(n) => s.handles(n) > 0
    case DropRef(n) => s.handles(n) > (if s.status(n).Offered? then 1 else 0)
    case Reclaim(n) => s.status(n).Retired? && forall t: Tid :: !Protects(s.local(t), n)
  }

  ghost predicate Init(s: State) {
    && s.head.Null? && s.seqNo == s.start && s.skipped == multiset{} && s.used == multiset{} && s.holder == map[]
       && s.created == 0
    && (forall t: Tid :: s.local(t).pc.Idle? && s.local(t).op.Nothing? && !s.local(t).holds)
    && (forall n: Node ::
       s.status(n).Unused? && s.marker(n).NoOne? && s.refs(n) == 0 && s.handles(n) == 0 && s.cleanups(n) == 0)
  }

  // ---------- the invariant ----------

  ghost predicate Live(s: State, at: Loc) {
    at.NextOf? ==> s.status(at.node).Linked?
  }

  ghost predicate Above(s: State, at: Loc, m: Node) {
    at.NextOf? ==> s.key(at.node) < s.key(m)
  }

  /** The links from head run through the linked nodes in increasing key order, and skip none. */
  ghost predicate Sorted(s: State) {
    && (forall at: Loc :: LinkOk(s, at))
    && (forall at: Loc, m: Node :: NoneSkipped(s, at, m))
    && (forall m: Node, n: Node :: KeysDiffer(s, m, n))
  }

  ghost predicate LinkOk(s: State, at: Loc) {
    Live(s, at) && LinkAt(s, at).ptr.To? ==>
      s.status(LinkAt(s, at).ptr.node).Linked? && Above(s, at, LinkAt(s, at).ptr.node)
  }

  ghost predicate NoneSkipped(s: State, at: Loc, m: Node) {
    Live(s, at) && s.status(m).Linked? && Above(s, at, m) ==>
      LinkAt(s, at).ptr.To? && s.key(LinkAt(s, at).ptr.node) <= s.key(m)
  }

  ghost predicate KeysDiffer(s: State, m: Node, n: Node) {
    s.status(m).Linked? && s.status(n).Linked? && s.key(m) == s.key(n) ==> m == n
  }

  /** In the list, or out of it but not reclaimed. */
  ghost predicate WasLinked(s: State, n: Node) {
    s.status(n).Linked? || s.status(n).Taken? || s.status(n).Retired?
  }

  /** The delete lock of a linked node has one owner; the lock of an unlinked node is never given back. */
  ghost predicate NodeOk(s: State, n: Node) {
    && (s.created <= n <==> s.status(n).Unused?)
    && (s.status(n).Taken? || s.status(n).Retired? || s.status(n).Reclaimed? ==> s.next(n).marked)
    && (s.status(n).Linked? ==> (s.next(n).marked <==> s.marker(n).By?))
    && (s.marker(n).By? ==> s.status(n).Linked? && var l := s.local(s.marker(n).who); HasMark(l.pc) && l.cur == n)
    && (s.status(n).Offered? ==> var l := s.local(s.status(n).who); !l.pc.Idle? && Inserts(l.op) && l.op.item == n)
    && (s.status(n).Taken? ==> var l := s.local(s.status(n).who); TakesOut(l) && l.cur == n)
  }

  ghost predicate TakesOut(l: Local) { (l.pc.TakeRef? && !l.op.Find?) || l.pc.Retire? }
  ghost predicate InList(pc: Pc) { Traversing(pc) || InserterAt(pc) || HasCur(pc) }
  ghost predicate OnlySetValue(pc: Pc) {
    pc.CheckSeq? || pc.DropSeq? || pc.Redraw? || pc.UnmarkSame? || pc.StoreOver? || pc.Replace?
  }

  /** What a thread knows about the list. */
  ghost predicate LocalOk(s: State, t: Tid) {
    Knows(s, t, s.local(t))
  }

  ghost predicate Knows(s: State, t: Tid, l: Local) {
    ShapeOk(l) && OpOk(s, t, l) && AtOk(s, l) && CurOk(s, t, l)
  }

  /** Which operation can be where. */
  ghost predicate ShapeOk(l: Local) {
    && (l.pc.Idle? <==> l.op.Nothing?)
    && (l.pc.DrawFirst? || InserterAt(l.pc) ==> Inserts(l.op))
    && (InserterAt(l.pc) && l.op.SetValue? ==> !l.op.onlyIfExists)
    && (l.pc.DrawFirst? ==> l.at.Head?)
    && (OnlySetValue(l.pc) ==> l.op.SetValue?)
    && ((l.pc.DrawMarked? || l.pc.Unlink? || l.pc.Skip?) ==> l.op.Delete? || l.op.Remove?)
    && (HasCur(l.pc) || l.pc.Retire? ==> l.op.Delete? || l.op.Remove? || l.op.SetValue?)
    && (l.pc.TakeRef? ==> l.op.Find? || l.op.Remove? || l.op.SetValue?)
    && (TakesOut(l) ==>
       l.res == (if l.op.Delete? then Done else DoneOld(To(l.cur))) && (l.op.SetValue? ==> l.cur != l.op.item))
    && (l.pc.TakeRef? && l.op.Find? ==> l.res == Found(l.cur))
  }

  ghost predicate OpOk(s: State, t: Tid, l: Local) {
    && (l.op.Insert? && (InList(l.pc) || l.pc.DrawFirst?) ==> s.status(l.op.item) == Offered(t))
    && ((l.pc.LinkCas? || l.pc.Replace?) && Inserts(l.op) ==> s.status(l.op.item) == Offered(t))
    && ((l.pc.TakeRef? || l.pc.Retire? || l.pc.Return?) && Inserts(l.op) && !Failure(l.res) ==>
       s.status(l.op.item) != Offered(t))
    && (Inserts(l.op) ==> s.created > l.op.item)
    && (ByItem(l.op) ==> s.created > l.op.goal.node)
  }

  /** Where the thread stands: at head, or at a node it passed, which is in the list or was when it passed it. */
  ghost predicate AtOk(s: State, l: Local) {
    && (InList(l.pc) && l.at.NextOf? ==>
          WasLinked(s, l.at.node) && (Inserts(l.op) ==> s.key(l.at.node) < GoalKey(s, l.op)))
    && (InList(l.pc) && l.at.NextOf? && !Inserts(l.op) ==>
          if ByItem(l.op) then l.at.node != l.op.goal.node else s.key(l.at.node) != GoalKey(s, l.op))
    && (InserterAt(l.pc) && l.nxt.To? ==> GoalKey(s, l.op) < s.key(l.nxt.node) && WasLinked(s, l.nxt.node))
    && ((l.pc.LinkCas? || l.pc.Replace?) && Inserts(l.op) ==> s.next(l.op.item) == Link(l.nxt, false))
  }

  ghost predicate CurOk(s: State, t: Tid, l: Local) {
    && (HasCur(l.pc) ==> WasLinked(s, l.cur) && Compare(s, l.op, l.cur).Match?)
    && (HasMark(l.pc) ==> s.marker(l.cur) == By(t) && s.next(l.cur) == Link(l.nxt, true))
    && (l.pc.UnmarkSame? && Inserts(l.op) ==> l.cur == l.op.item)
    && ((l.pc.StoreOver? || l.pc.Replace?) && Inserts(l.op) ==> l.cur != l.op.item)
    && (TakesOut(l) ==> s.status(l.cur) == Taken(t))
    && (l.pc.TakeRef? && l.op.Find? ==> WasLinked(s, l.cur))
  }

  ghost predicate ListInv(s: State) {
    Sorted(s) && (forall n: Node :: NodeOk(s, n)) && (forall t: Tid :: LocalOk(s, t))
  }

  // ---------- sequence numbers ----------

  ghost predicate MustHold(l: Local) {
    || (Inserts(l.op) && (InList(l.pc) || (l.pc.Return? && Failure(l.res))) && !l.pc.Redraw?)
    || l.pc.Unlink? || l.pc.Skip?
    || (l.pc.Unmark? && !l.op.SetValue?)
  }

  /** The numbers above start, up to the counter, are those drawn; each is held by the thread that drew it, or was
      skipped once, or was used once. */
  ghost predicate NumberOk(s: State, n: int) {
    && (n in s.holder <==> s.start < n <= s.seqNo)
    && (n !in s.holder ==> s.used[n] == 0 && s.skipped[n] == 0)
    && (n in s.holder ==> var l := s.local(s.holder[n]);
          s.used[n] + s.skipped[n] == if l.holds && l.seqNo == n then 0 else 1)
  }

  ghost predicate SeqLocalOk(s: State, t: Tid) {
    var l := s.local(t);
    && (l.holds <==> MustHold(l))
    && (l.holds ==> l.seqNo in s.holder && s.holder[l.seqNo] == t)
    && (l.pc.Unlink? || l.pc.UnmarkSame? || l.pc.StoreOver? || l.pc.Replace? ==> s.putSeq(l.cur) < l.seqNo)
  }

  /** The number that put a linked node in was drawn and used. */
  ghost predicate PutSeqOk(s: State, n: Node) {
    s.status(n).Linked? ==> s.putSeq(n) in s.holder && s.used[s.putSeq(n)] == 1
  }

  ghost predicate SeqInv(s: State) {
    && s.start <= s.seqNo
    && (forall n: int :: NumberOk(s, n))
    && (forall t: Tid :: SeqLocalOk(s, t))
    && (forall n: Node :: PutSeqOk(s, n))
  }

  // ---------- reference counts ----------

  /** One reference of the list until its reclaim runs, and one for each handle; cleanup ran once at zero. */
  ghost predicate RefsOk(s: State, n: Node) {
    && s.handles(n) >= 0
    && s.refs(n) == s.handles(n) + (if WasLinked(s, n) then 1 else 0)
    && (s.status(n).Offered? ==> s.handles(n) > 0)
    && s.cleanups(n) == (if s.refs(n) == 0 && !s.status(n).Unused? then 1 else 0)
    && (s.status(n).Unused? ==> s.refs(n) == 0)
  }

  ghost predicate RefInv(s: State) {
    forall n: Node :: RefsOk(s, n)
  }
}
