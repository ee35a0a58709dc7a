/** The hazard pointers of src/clds_hazard_pointers.c as a state machine: one step is one access to a shared field, or
    one pass of a loop over data of the thread alone. Threads are numbered in the order in which they were pushed on
    the thread list, so the list runs from the newest to thread 0. Thread and hazard pointer records are not freed. */
module HazardPointers {
  import opened Memory

  type Rec = nat
  type Node = nat

  datatype Ptr = Null | To(to: nat)

  /** Where a hazard pointer record is. No access reads it. */
  datatype RecState =
    | Unborn
    | Spare(who: Tid)     // on the free list of who
    | Taking(who: Tid)    // popped or allocated, not pushed
    | Held(who: Tid)      // on the list of who
    | Leaving(who: Tid)   // on the list of who, which is releasing it
    | Loose(who: Tid)     // off the list, not on the free list

  /** Who owns the reclaim entry of a node. */
  datatype Place = NotRetired | OnList(who: Tid) | Parked | Swept(who: Tid) | Done

  datatype Pc =
    | Absent | Idle | Gone
    | TakeFree | PopFree | TakeHead | SetNode | SetNext | Push                                 // acquire
    | FirstRecord | ClearNode | FindRecord | Unlink | ReadFree | SetFreeNext | PushFree        // release
    | StartScan | ScanHead | ScanActive | ScanPointers | ScanNext | ScanNode                   // reclaim: collect
    | Filter | SweepTake | SweepEach | SweepRead | SweepPush                                   // reclaim: use
    | ParkRead | ParkPush | TurnOff                                                            // unregister

  /** The locals of a call: the record or node it is about, the pointers it has read, the set of hazards found, the
      next thread to scan (-1 for NULL), the own list still to filter and what is kept of it, the detached chain and
      what is kept of it. */
  datatype Local = Local(pc: Pc, node: Node, rec: Rec, h: Ptr, prev: Ptr, cur: Ptr, nxt: Ptr, at: int,
                         found: set<Node>, todo: seq<Node>, kept: seq<Node>, start: nat)

  datatype State = State(
    threads: nat,
    active: Tid -> bool,
    head: Tid -> Ptr,              // pointers
    free: Tid -> Ptr,              // free_pointers
    next: Rec -> Ptr,
    node: Rec -> Ptr,
    list: Tid -> seq<Node>,        // reclaim_list
    count: Tid -> int,             // reclaim_list_entry_count
    threshold: int,
    pending: seq<Node>,            // pending_reclaim_list
    local: Tid -> Local,
    // history
    clock: nat,
    records: nat,
    rec: Rec -> RecState,
    stamp: Rec -> nat,             // when the record was pushed
    valid: Rec -> bool,            // the node was seen in place after the push
    place: Node -> Place,
    retiredAt: Node -> nat)

  /** Whether malloc succeeds in the step. */
  datatype Env = Env(memoryOk: bool)

  function First(q: seq<Node>): Ptr { if q == [] then Null else To(q[0]) }

  function Run(s: State, t: Tid, l: Local): State { s.(local := Put(s.local, t, l)) }

  function SetRec(s: State, r: Rec, x: RecState): State { s.(rec := Put(s.rec, r, x)) }

  /** acquire, lines 612-680 */
  function Acquiring(s: State, t: Tid, e: Env): State {
    var l := s.local(t);
    match l.pc
    case TakeFree =>
      if s.free(t).To? then Run(s, t, l.(pc := PopFree, rec := s.free(t).to))
      else if !e.memoryOk then Run(s, t, l.(pc := Idle))
      else SetRec(Run(s, t, l.(pc := TakeHead, rec := s.records)), s.records, Taking(t)).(records := s.records + 1)
    case PopFree =>
      if s.free(t) != To(l.rec) then Run(s, t, l.(pc := TakeFree))
      else SetRec(Run(s, t, l.(pc := TakeHead)), l.rec, Taking(t)).(free := Put(s.free, t, s.next(l.rec)))
    case TakeHead => Run(s, t, l.(pc := SetNode, h := s.head(t)))
    case SetNode => Run(s, t, l.(pc := SetNext)).(node := Put(s.node, l.rec, To(l.node)))
    case SetNext => Run(s, t, l.(pc := Push)).(next := Put(s.next, l.rec, l.h))
    case Push =>
      SetRec(Run(s, t, l.(pc := Idle)), l.rec, Held(t)).(head := Put(s.head, t, To(l.rec)),
        stamp := Put(s.stamp, l.rec, s.clock))
    case _ => s
  }

  /** release, lines 696-729 */
  function Releasing(s: State, t: Tid): State {
    var l := s.local(t);
    match l.pc
    case FirstRecord => Run(s, t, l.(pc := ClearNode, cur := s.head(t), prev := Null))
    case ClearNode => Run(s, t, l.(pc := FindRecord)).(node := Put(s.node, l.rec, Null))
    case FindRecord =>
      if l.cur.Null? then Run(s, t, l.(pc := ReadFree))
      else if l.cur == To(l.rec) then Run(s, t, l.(pc := Unlink))
      else Run(s, t, l.(prev := l.cur, cur := s.next(l.cur.to)))
    case Unlink =>
      SetRec(Run(if l.prev.To? then s.(next := Put(s.next, l.prev.to, s.next(l.rec)))
        else s.(head := Put(s.head, t, s.next(l.rec))),
                 t, l.(pc := ReadFree)), l.rec, Loose(t))
    case ReadFree => Run(s, t, l.(pc := SetFreeNext, h := s.free(t)))
    case SetFreeNext => Run(s, t, l.(pc := PushFree)).(next := Put(s.next, l.rec, l.h))
    case PushFree => SetRec(Run(s, t, l.(pc := Idle)), l.rec, Spare(t)).(free := Put(s.free, t, To(l.rec)))
    case _ => s
  }

  function NextThread(l: Local): Local {
    if l.at <= 0 then l.(pc := Filter, at := -1, kept := []) else l.(pc := ScanActive, at := l.at - 1)
  }

  /** The collection of hazards, lines 174-227; a failed allocation ends the call with nothing reclaimed. */
  function Scanning(s: State, l: Local, e: Env): Local {
    match l.pc
    case StartScan => if e.memoryOk then l.(pc := ScanHead, found := {}, start := s.clock) else l.(pc := Idle)
    case ScanHead =>
      if s.threads == 0 then l.(pc := Filter, at := -1, kept := []) else l.(pc := ScanActive, at := s.threads - 1)
    case ScanActive => if l.at >= 0 && s.active(l.at) then l.(pc := ScanPointers) else NextThread(l)
    case ScanPointers =>
      if l.at >= 0 && s.head(l.at).To? then l.(pc := ScanNext, cur := s.head(l.at)) else NextThread(l)
    case ScanNext => if l.cur.To? then l.(pc := ScanNode, nxt := s.next(l.cur.to)) else NextThread(l)
    case ScanNode =>
      if l.cur.To? && s.node(l.cur.to).To? && !e.memoryOk then l.(pc := Idle)
      else
        var l' := if l.cur.To? && s.node(l.cur.to).To? then l.(found := l.found + {s.node(l.cur.to).to}) else l;
        if l.nxt.To? then l'.(pc := ScanNext, cur := l.nxt) else NextThread(l')
    case _ => l
  }

  function Place1(s: State, n: Node, p: Place): State { s.(place := Put(s.place, n, p)) }

  /** The use of the hazards found, lines 230-315: filter the own list, then sweep the pending list. */
  function Using(s: State, t: Tid): State {
    var l := s.local(t);
    match l.pc
    case Filter =>
      // kept entries stay in front of those not looked at yet
      if |l.kept| >= |s.list(t)| then Run(s, t, l.(pc := SweepTake))
      else
        var n := s.list(t)[|l.kept|];
        if n in l.found then Run(s, t, l.(kept := l.kept + [n]))
        else Place1(s, n, Done).(list := Put(s.list, t, l.kept + s.list(t)[|l.kept| + 1..]),
          count := Put(s.count, t, s.count(t) - 1))
    case SweepTake => Run(s, t, l.(pc := SweepEach, todo := s.pending, kept := []))
                        .(pending := [], place := (n: Node) => if n in s.pending then Swept(t) else s.place(n))
    case SweepEach =>
      if l.todo == [] then Run(s, t, l.(pc := if l.kept == [] then Idle else SweepRead))
      else if l.todo[0] in l.found then Run(s, t, l.(todo := l.todo[1..], kept := [l.todo[0]] + l.kept))
      else Place1(Run(s, t, l.(todo := l.todo[1..])), l.todo[0], Done)
    case SweepRead => Run(s, t, l.(pc := SweepPush, h := First(s.pending)))
    case SweepPush =>
      if First(s.pending) != l.h then Run(s, t, l.(pc := SweepRead))
      else Run(s, t, l.(pc := Idle, kept := []))
             .(pending := l.kept + s.pending, place := (n: Node) => if n in l.kept then Parked else s.place(n))
    case _ => s
  }

  /** unregister, lines 565-588 */
  function Parking(s: State, t: Tid): State {
    var l := s.local(t);
    match l.pc
    case ParkRead =>
      if s.list(t) == [] then Run(s, t, l.(pc := TurnOff)) else Run(s, t, l.(pc := ParkPush, h := First(s.pending)))
    case ParkPush =>
      if First(s.pending) != l.h then Run(s, t, l.(pc := ParkRead))
      else Run(s, t, l.(pc := TurnOff))
             .(pending := s.list(t) + s.pending, list := Put(s.list, t, []), count := Put(s.count, t, 0),
               place := (n: Node) => if n in s.list(t) then Parked else s.place(n))
    case TurnOff => Run(s, t, l.(pc := Gone)).(active := Put(s.active, t, false))
    case _ => s
  }

  predicate InAcquire(pc: Pc) { pc.TakeFree? || pc.PopFree? || pc.TakeHead? || pc.SetNode? || pc.SetNext? || pc.Push? }
  predicate InRelease(pc: Pc) {
    pc.FirstRecord? || pc.ClearNode? || pc.FindRecord? || pc.Unlink? || pc.ReadFree? || pc.SetFreeNext? || pc.PushFree?
  }
  predicate InScan(pc: Pc) {
    pc.StartScan? || pc.ScanHead? || pc.ScanActive? || pc.ScanPointers? || pc.ScanNext? || pc.ScanNode?
  }
  predicate InUse(pc: Pc) { pc.Filter? || pc.SweepTake? || pc.SweepEach? || pc.SweepRead? || pc.SweepPush? }
  predicate InPark(pc: Pc) { pc.ParkRead? || pc.ParkPush? || pc.TurnOff? }

  /** The next step of thread t. */
  function Step(s: State, t: Tid, e: Env): State {
    var pc := s.local(t).pc;
    if InAcquire(pc) then Acquiring(s, t, e)
    else if InRelease(pc) then Releasing(s, t)
    else if InScan(pc) then Run(s, t, Scanning(s, s.local(t), e))
    else if InUse(pc) then Using(s, t)
    else if InPark(pc) then Parking(s, t)
    else s
  }

  datatype Action =
    | Register
    | Acquire(t: Tid, n: Node)
    | Validate(t: Tid, r: Rec)            // the caller saw the node in place after acquire returned r
    | Release(t: Tid, r: Rec)
    | Reclaim(t: Tid, n: Node, env: Env)
    | SetThreshold(k: int)
    | Unregister(t: Tid)
    | Move(t: Tid, env: Env)

  function Act(s: State, a: Action): State {
    match a
    case Register =>
      var t := s.threads;
      Run(s, t, s.local(t).(pc := Idle))
        .(threads := t + 1, active := Put(s.active, t, true), head := Put(s.head, t, Null),
          free := Put(s.free, t, Null), list := Put(s.list, t, []), count := Put(s.count, t, 0))
    case Acquire(t, n) => Run(s, t, s.local(t).(pc := TakeFree, node := n))
    case Validate(t, r) => s.(valid := Put(s.valid, r, true))
    case Release(t, r) =>
      SetRec(Run(s, t, s.local(t).(pc := FirstRecord, rec := r)), r, Leaving(t)).(valid := Put(s.valid, r, false))
    case Reclaim(t, n, e) =>
      // a node whose entry cannot be allocated is dropped
      if !e.memoryOk then s
      else Run(s, t, s.local(t).(pc := if s.count(t) + 1 >= s.threshold then StartScan else Idle))
             .(list := Put(s.list, t, [n] + s.list(t)), count := Put(s.count, t, s.count(t) + 1),
               place := Put(s.place, n, OnList(t)), retiredAt := Put(s.retiredAt, n, s.clock))
    case SetThreshold(k) => s.(threshold := k)
    case Unregister(t) => Run(s, t, s.local(t).(pc := ParkRead))
    case Move(t, e) => Step(s, t, e)
  }

  /** The clock of the history goes on. */
  function Tick(s: State): State { s.(clock := s.clock + 1) }

  function Do(s: State, a: Action): State { Tick(Act(s, a)) }

  /** What callers promise: a node is seen in place only before it is retired, a node is retired once, a thread
      releases its oldest hazard pointer first, and unregisters when it holds none. */
  ghost predicate Allowed(s: State, a: Action) {
    match a
    case Register => true
    case Acquire(t, n) => s.local(t).pc.Idle?
    case Validate(t, r) =>
      s.local(t).pc.Idle? && s.rec(r) == Held(t) && s.node(r).To? && s.place(s.node(r).to).NotRetired?
    case Release(t, r) =>
      s.local(t).pc.Idle? && s.rec(r) == Held(t) && forall q: Rec :: s.rec(q) == Held(t) && q != r ==>
        s.stamp(r) < s.stamp(q)
    case Reclaim(t, n, e) => s.local(t).pc.Idle? && s.place(n).NotRetired?
    case SetThreshold(k) => k > 0
    case Unregister(t) => s.local(t).pc.Idle? && forall r: Rec :: s.rec(r) != Held(t)
    case Move(t, e) => true
  }

  ghost predicate Init(s: State) {
    && s.threads == 0 && s.pending == [] && s.clock == 0 && s.records == 0 && s.threshold > 0
    && (forall t: Tid :: s.local(t).pc.Absent? && !s.active(t))
    && (forall t: Tid :: s.head(t).Null? && s.free(t).Null? && s.list(t) == [] && s.count(t) == 0)
    && (forall r: Rec :: s.rec(r).Unborn? && !s.valid(r))
    && (forall n: Node :: s.place(n).NotRetired?)
  }

  // ---------- the invariant: hazard pointer records ----------

  /** r is on the list of hazard pointers of u. */
  ghost predicate Listed(s: State, u: Tid, r: Rec) { s.rec(r) == Held(u) || s.rec(r) == Leaving(u) }

  /** The list of u runs from the newest record to the oldest and skips none. */
  ghost predicate HeadOk(s: State, u: Tid) {
    && (s.head(u).To? ==> Listed(s, u, s.head(u).to))
    && (s.free(u).To? ==> s.rec(s.free(u).to) == Spare(u))
  }

  ghost predicate BelowHead(s: State, u: Tid, r: Rec) {
    Listed(s, u, r) ==> s.head(u).To? && s.stamp(r) <= s.stamp(s.head(u).to)
  }

  ghost predicate NextOk(s: State, u: Tid, r: Rec) {
    && (Listed(s, u, r) && s.next(r).To? ==> Listed(s, u, s.next(r).to) && s.stamp(s.next(r).to) < s.stamp(r))
    && (s.rec(r) == Spare(u) && s.next(r).To? ==> s.rec(s.next(r).to) == Spare(u))
    && (s.rec(r) == Spare(u) ==> s.next(r) == Null || s.next(r) != s.free(u))
  }

  ghost predicate NoneSkipped(s: State, u: Tid, q: Rec, r: Rec) {
    && (Listed(s, u, q) && Listed(s, u, r) && s.stamp(r) < s.stamp(q) ==>
       s.next(q).To? && s.stamp(r) <= s.stamp(s.next(q).to))
    && (Listed(s, u, q) && Listed(s, u, r) && s.stamp(r) == s.stamp(q) ==> q == r)
    && (s.rec(q) == Spare(u) && s.rec(r) == Spare(u) && s.next(q).To? && s.next(q) == s.next(r) ==> q == r)
  }

  ghost predicate RecOk(s: State, r: Rec) {
    && (s.rec(r).Unborn? <==> s.records <= r)
    && (s.valid(r) ==> s.rec(r).Held? && s.node(r).To?)
    && (s.rec(r).Held? || s.rec(r).Leaving? ==> s.stamp(r) < s.clock)
    && (!s.rec(r).Unborn? ==> s.rec(r).who < s.threads)
    && (s.rec(r).Held? ==> s.active(s.rec(r).who) && !InPark(s.local(s.rec(r).who).pc))
    && (s.rec(r).Leaving? ==> InRelease(s.local(s.rec(r).who).pc) && s.local(s.rec(r).who).rec == r)
  }

  /** A released record is the oldest of its list. */
  ghost predicate OldestFirst(s: State, u: Tid, r: Rec, q: Rec) {
    s.rec(r) == Leaving(u) && Listed(s, u, q) && q != r ==> s.stamp(r) < s.stamp(q)
  }

  ghost predicate RecLocalOk(s: State, t: Tid) {
    var l := s.local(t);
    && (l.pc.Absent? <==> s.threads <= t)
    && (s.active(t) <==> !l.pc.Absent? && !l.pc.Gone?)
    && (l.pc.TakeHead? || l.pc.SetNode? || l.pc.SetNext? || l.pc.Push? ==> s.rec(l.rec) == Taking(t))
    && (l.pc.SetNode? || l.pc.SetNext? || l.pc.Push? ==> l.h == s.head(t))
    && (l.pc.SetNext? || l.pc.Push? ==> s.node(l.rec) == To(l.node))
    && (l.pc.Push? ==> s.next(l.rec) == l.h)
    && (l.pc.FirstRecord? || l.pc.ClearNode? || l.pc.FindRecord? || l.pc.Unlink? ==> s.rec(l.rec) == Leaving(t))
    && (l.pc.ClearNode? || l.pc.FindRecord? || l.pc.Unlink? ==> WalkOk(s, t, l))
    && (l.pc.Unlink? ==> l.cur == To(l.rec))
    && (l.pc.ReadFree? || l.pc.SetFreeNext? || l.pc.PushFree? ==> s.rec(l.rec) == Loose(t))
    && (l.pc.SetFreeNext? || l.pc.PushFree? ==> l.h == s.free(t))
    && (l.pc.PushFree? ==> s.next(l.rec) == l.h)
  }

  /** The walk of release stands at or before its record, with prev just before it. */
  ghost predicate WalkOk(s: State, t: Tid, l: Local) {
    && l.cur.To? && Listed(s, t, l.cur.to) && s.stamp(l.rec) <= s.stamp(l.cur.to)
    && (if l.prev.To? then Listed(s, t, l.prev.to) && s.next(l.prev.to) == l.cur else s.head(t) == l.cur)
  }

  ghost predicate ListOk(s: State, u: Tid) {
    && HeadOk(s, u)
    && (forall r: Rec :: BelowHead(s, u, r) && NextOk(s, u, r))
    && (forall q: Rec, r: Rec :: NoneSkipped(s, u, q, r) && OldestFirst(s, u, q, r))
  }

  ghost predicate RecInv(s: State) {
    && (forall u: Tid :: ListOk(s, u))
    && (forall r: Rec :: RecOk(s, r))
    && (forall t: Tid :: RecLocalOk(s, t))
  }

  // ---------- the invariant: the scan ----------

  /** Record r of u guards node n: u may use n. */
  ghost predicate Guards(s: State, u: Tid, r: Rec, n: Node) { s.rec(r) == Held(u) && s.valid(r) && s.node(r) == To(n) }

  /** The scan of l has yet to come to record r of u. */
  ghost predicate Ahead(s: State, l: Local, u: Tid, r: Rec) {
    match l.pc
    case ScanHead => true
    case ScanActive | ScanPointers => u <= l.at
    case ScanNext => u < l.at || (u == l.at && Reaches(s, u, l.cur, r))
    case ScanNode => u < l.at || (u == l.at && (l.cur == To(r) || Reaches(s, u, l.nxt, r)))
    case _ => false
  }

  ghost predicate Reaches(s: State, u: Tid, p: Ptr, r: Rec) {
    p.To? && Listed(s, u, p.to) && s.stamp(r) <= s.stamp(p.to)
  }

  ghost predicate Collects(pc: Pc) {
    pc.ScanHead? || pc.ScanActive? || pc.ScanPointers? || pc.ScanNext? || pc.ScanNode? || InUse(pc)
  }

  /** A node retired before the scan of x began, and still guarded, is found or the scan has yet to come to it. */
  ghost predicate ScanOk(s: State, x: Tid, u: Tid, r: Rec, n: Node) {
    var l := s.local(x);
    Collects(l.pc) && Guards(s, u, r, n) && !s.place(n).NotRetired? && s.retiredAt(n) < l.start ==>
      n in l.found || Ahead(s, l, u, r)
  }

  ghost predicate TimeOk(s: State, x: Tid) { Collects(s.local(x).pc) ==> s.local(x).start <= s.clock }

  ghost predicate ScanInv(s: State) {
    && (forall x: Tid :: TimeOk(s, x))
    && (forall x: Tid, u: Tid, r: Rec, n: Node :: ScanOk(s, x, u, r, n))
  }

  // ---------- the invariant: reclaim entries ----------

  ghost predicate Distinct(q: seq<Node>) { forall i, j :: 0 <= i < j < |q| ==> q[i] != q[j] }

  /** The detached chain a thread is sweeping. */
  function Chain(l: Local): seq<Node> {
    if l.pc.SweepEach? || l.pc.SweepRead? || l.pc.SweepPush? then l.todo + l.kept else []
  }

  ghost predicate EntryOk(s: State, n: Node) {
    && (n in s.pending <==> s.place(n).Parked?)
    && (forall t: Tid {:trigger s.list(t)} :: n in s.list(t) <==> s.place(n) == OnList(t))
    && (forall t: Tid {:trigger s.local(t)} :: n in Chain(s.local(t)) <==> s.place(n) == Swept(t))
  }

  ghost predicate EntryPcOk(list: seq<Node>, l: Local) {
    && (l.pc.SweepRead? || l.pc.SweepPush? ==> l.todo == [] && l.kept != [])
    && (l.pc.Filter? ==> |l.kept| <= |list| && list[..|l.kept|] == l.kept)
    && (l.pc.Gone? || l.pc.TurnOff? || l.pc.Absent? ==> list == [])
  }

  ghost predicate EntryLocalOk(s: State, t: Tid) {
    var l := s.local(t);
    && Distinct(s.list(t)) && s.count(t) == |s.list(t)|
    && Distinct(Chain(l)) && EntryPcOk(s.list(t), l)
    && (forall n: Node :: n in s.list(t) ==> s.retiredAt(n) < s.clock)
    && (Collects(l.pc) ==> forall n: Node :: n in s.list(t) ==> s.retiredAt(n) < l.start)
  }

  ghost predicate EntryInv(s: State) {
    && Distinct(s.pending)
    && (forall n: Node :: EntryOk(s, n))
    && (forall t: Tid :: EntryLocalOk(s, t))
  }
}
