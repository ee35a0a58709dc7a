/** The sorted list together with its hazard pointers: every call runs the accesses of SortedList and, in between, those
    of the acquire, release and reclaim calls that src/clds_sorted_list.c makes, on the machine of HazardPointers. One
    list on one hazard pointers instance. A thread is in the middle of an acquire, release or reclaim call, or between
    two of them; then `todo` says what its call does next. */
module GuardedList {
  import opened Memory
  import L = SortedList
  import T = SortedListTheorems
  import H = HazardPointers
  import HT = HazardPointersTheorems

  type Node = L.Node
  type Rec = H.Rec

  datatype Maybe<A> = Nothing | Just(value: A)

  /** What a call does with its hazard pointers before its next access to the list. */
  datatype Todo =
    | Ready             // nothing
    | Guard             // acquire one for cur
    | Advance           // release previous_hp; current_item_hp becomes the previous one
    | Shift
    | FreePrevious      // release previous_hp
    | LetGo             // release previous_hp, then current_item_hp
    | FreeCurrent

  /** previous_hp and current_item_hp, Null when the call has none. */
  datatype Hold = Hold(previous: H.Ptr, current: H.Ptr, todo: Todo)

  datatype State = State(list: L.State, hp: H.State, hold: Tid -> Hold)

  datatype Action =
    | OfCaller(a: L.Action)                            // Create, Begin, AddRef, DropRef
    | OfDomain(h: H.Action)                            // Register, SetThreshold, Unregister
    | Go(t: Tid, verdict: L.Verdict, memoryOk: bool)   // the next step of t

  /** What a call does with its hazard pointers after the access that took it from l to l'. */
  function HazardsAfter(l: L.Local, l': L.Local): Todo {
    match l.pc
    case Read => if l'.pc.Check? then Guard else if l'.pc.Return? then LetGo else Ready
    case Check =>
      if l'.pc.Read? && l'.at.NextOf? then Advance
      else if l'.pc.Read? || l'.pc.Return? then LetGo
      else if l'.pc.TakeRef? then FreePrevious
      else Ready
    case Mark => if l'.pc.Read? then LetGo else Ready
    case Unlink => if l'.pc.Retire? then LetGo else Ready
    case Replace => if l'.pc.TakeRef? then LetGo else Ready
    case TakeRef => if l.op.SetValue? then Ready else LetGo
    case LinkCas | Unmark | UnmarkSame => LetGo
    case _ => Ready
  }

  predicate Busy(s: State, t: Tid) { !s.hp.local(t).pc.Idle? }

  /** The accesses to the list find a hazard pointer if the last acquire gave one. */
  function EnvOf(s: State, a: Action): L.Env
    requires a.Go?
  {
    L.Env(s.hold(a.t).current.To?, a.verdict)
  }

  /** The node whose reclaim function the next step of t calls. */
  function Reclaimed(hp: H.State, t: Tid): Maybe<Node> {
    var l := hp.local(t);
    if l.pc.Filter? && |l.kept| < |hp.list(t)| && hp.list(t)[|l.kept|] !in l.found then Just(hp.list(t)[|l.kept|])
    else if l.pc.SweepEach? && l.todo != [] && l.todo[0] !in l.found then Just(l.todo[0])
    else Nothing
  }

  predicate ListStep(s: State, t: Tid) { !Busy(s, t) && s.hold(t).todo.Ready? }

  /** What an action does to the list. */
  function ListPart(s: State, a: Action): Maybe<L.Action> {
    match a
    case OfCaller(x) => Just(x)
    case OfDomain(_) => Nothing
    case Go(t, _, _) =>
      if ListStep(s, t) then Just(L.Move(t, EnvOf(s, a)))
      else if Busy(s, t) && Reclaimed(s.hp, t).Just? then Just(L.Reclaim(Reclaimed(s.hp, t).value))
      else Nothing
  }

  /** The read after acquire finds the node in place. */
  predicate Validates(s: State, t: Tid) {
    var l := s.list.local(t);
    l.pc.Check? && s.hold(t).current.To? && L.LinkAt(s.list, l.at) == L.Link(L.To(l.cur), false)
  }

  function ToRelease(p: H.Ptr, t: Tid): Maybe<H.Action> { if p.To? then Just(H.Release(t, p.to)) else Nothing }

  /** What an action does to the hazard pointers. */
  function HazardPart(s: State, a: Action): Maybe<H.Action> {
    match a
    case OfCaller(_) => Nothing
    case OfDomain(h) => Just(h)
    case Go(t, _, memoryOk) =>
      if Busy(s, t) then Just(H.Move(t, H.Env(memoryOk)))
      else
        match s.hold(t).todo
        case Ready =>
          if Validates(s, t) then Just(H.Validate(t, s.hold(t).current.to))
          else if s.list.local(t).pc.Retire? then Just(H.Reclaim(t, s.list.local(t).cur, H.Env(memoryOk)))
          else Nothing
        case Guard => Just(H.Acquire(t, s.list.local(t).cur))
        case Advance | FreePrevious | LetGo => ToRelease(s.hold(t).previous, t)
        case FreeCurrent => ToRelease(s.hold(t).current, t)
        case Shift => Nothing
  }

  /** What an action does to the hazard pointers that its call has. */
  function HoldAfter(s: State, a: Action): Hold
    requires a.Go?
  {
    var h, p := s.hold(a.t), s.hp.local(a.t);
    if Busy(s, a.t) then (if p.pc.Push? then h.(current := H.To(p.rec)) else h)
    else
      match h.todo
      case Ready => h.(todo := HazardsAfter(s.list.local(a.t), L.Step(s.list, a.t, EnvOf(s, a)).local(a.t)))
      case Guard => h.(todo := Ready)
      case Advance => h.(previous := H.Null, todo := Shift)
      case Shift => Hold(h.current, H.Null, Ready)
      case FreePrevious => h.(previous := H.Null, todo := Ready)
      case LetGo => h.(previous := H.Null, todo := FreeCurrent)
      case FreeCurrent => h.(current := H.Null, todo := Ready)
  }

  function ListDo(list: L.State, part: Maybe<L.Action>): L.State { if part.Just? then L.Do(list, part.value) else list }
  function HazardDo(hp: H.State, part: Maybe<H.Action>): H.State { if part.Just? then H.Do(hp, part.value) else hp }

  function Do(s: State, a: Action): State {
    State(ListDo(s.list, ListPart(s, a)), HazardDo(s.hp, HazardPart(s, a)),
          if a.Go? then Put(s.hold, a.t, HoldAfter(s, a)) else s.hold)
  }

  /** What callers promise. A thread makes calls while it is registered, and unregisters between calls. Nothing is
      promised of hazard pointers or of reclaiming. */
  ghost predicate Allowed(s: State, a: Action) {
    match a
    case OfCaller(x) =>
      (x.Create? || x.Begin? || x.AddRef? || x.DropRef?) && L.Allowed(s.list, x) && (x.Begin? ==> !Busy(s, x.t))
    case OfDomain(h) =>
      h.Register? || (h.SetThreshold? && h.k > 0) || (h.Unregister? && !Busy(s, h.t) && s.list.local(h.t).pc.Idle?)
    case Go(t, _, _) => ListStep(s, t) ==> L.Allowed(s.list, L.Move(t, EnvOf(s, a)))
  }

  /** An entry swept from the pending list was retired before the hazards were collected. */
  ghost predicate Early(s: State, a: Action) {
    a.Go? && s.hp.local(a.t).pc.SweepEach? && Reclaimed(s.hp, a.t).Just? ==>
      s.hp.retiredAt(Reclaimed(s.hp, a.t).value) < s.hp.local(a.t).start
  }

  ghost predicate Init(s: State) {
    L.Init(s.list) && H.Init(s.hp) && forall t: Tid {:trigger s.hold(t)} :: s.hold(t) == Hold(H.Null, H.Null, Ready)
  }

  // ---------- the invariant ----------

  /** The hazard pointers of t are those its call has, taken in this order. */
  ghost predicate RecordOk(s: State, t: Tid, r: Rec) {
    s.hp.rec(r) == H.Held(t) <==> s.hold(t).previous == H.To(r) || s.hold(t).current == H.To(r)
  }

  ghost predicate OrderOk(s: State, t: Tid) {
    var h := s.hold(t);
    h.previous.To? && h.current.To? ==> s.hp.stamp(h.previous.to) < s.hp.stamp(h.current.to)
  }

  ghost predicate Covers(s: State, t: Tid, p: H.Ptr, n: Node) { p.To? && H.Guards(s.hp, t, p.to, n) }

  /** The call has a hazard pointer for the node whose `next` it looks at. */
  predicate KeepsPrevious(l: L.Local) {
    l.at.NextOf? && (L.Traversing(l.pc) || L.InserterAt(l.pc) || L.HasCur(l.pc) || (l.pc.TakeRef? && l.op.Remove?))
  }

  ghost predicate PreviousOk(s: State, t: Tid) {
    var h, l := s.hold(t), s.list.local(t);
    && (h.previous.To? <==> KeepsPrevious(l))
    && (KeepsPrevious(l) && !l.pc.TakeRef? ==> Covers(s, t, h.previous, l.at.node))
  }

  ghost predicate CurrentOk(s: State, t: Tid) {
    var h, l := s.hold(t), s.list.local(t);
    && (l.pc.Check? && h.current.To? ==> s.hp.node(h.current.to) == H.To(l.cur))
    && (L.HasCur(l.pc) || (l.pc.TakeRef? && l.op.Find?) ==> Covers(s, t, h.current, l.cur))
    && (L.InserterAt(l.pc) && l.nxt.To? ==> Covers(s, t, h.current, l.nxt.node))
    && (h.current.To? ==>
          l.pc.Check? || L.HasCur(l.pc) || (L.InserterAt(l.pc) && l.nxt.To?) || (l.pc.TakeRef? && !l.op.SetValue?))
  }

  /** The call is past its last use of the nodes it protected. */
  predicate Through(l: L.Local) {
    (l.pc.Read? && l.at.Head?) || l.pc.Return? || l.pc.Skip? || l.pc.Retire? || (l.pc.TakeRef? && l.op.SetValue?)
  }

  /** What the call has, by what it does next. */
  ghost predicate HoldOk(s: State, t: Tid) {
    var h, l := s.hold(t), s.list.local(t);
    match h.todo
    case Ready => PreviousOk(s, t) && CurrentOk(s, t)
    case Guard => l.pc.Check? && h.current.Null? && PreviousOk(s, t)
    case Advance => l.pc.Read? && l.at.NextOf? && Covers(s, t, h.current, l.at.node)
    case Shift => l.pc.Read? && l.at.NextOf? && Covers(s, t, h.current, l.at.node) && h.previous.Null?
    case FreePrevious => l.pc.TakeRef? && l.op.Find? && Covers(s, t, h.current, l.cur)
    case LetGo => Through(l)
    case FreeCurrent => Through(l) && h.previous.Null?
  }

  /** Which call of the hazard pointers can be under way. */
  ghost predicate CallOk(s: State, t: Tid) {
    var h, l, p := s.hold(t), s.list.local(t), s.hp.local(t);
    && (H.InAcquire(p.pc) ==> h.todo.Ready? && l.pc.Check? && h.current.Null? && p.node == l.cur)
    && (l.pc.Idle? ==> h == Hold(H.Null, H.Null, Ready) && (p.pc.Idle? || p.pc.Absent? || p.pc.Gone? || H.InPark(p.pc)))
    && (p.pc.Absent? || p.pc.Gone? || H.InPark(p.pc) ==> l.pc.Idle?)
  }

  /** The hazard pointers reclaim what the list retired. */
  ghost predicate PlaceOk(s: State, n: Node) {
    && (!s.hp.place(n).NotRetired? ==> s.list.status(n).Retired? || s.list.status(n).Reclaimed?)
    && (s.hp.place(n).Done? <==> s.list.status(n).Reclaimed?)
  }

  ghost predicate ThreadOk(s: State, t: Tid) { OrderOk(s, t) && HoldOk(s, t) && CallOk(s, t) }

  ghost predicate LinkInv(s: State) {
    && (forall t: Tid, r: Rec :: RecordOk(s, t, r))
    && (forall t: Tid :: ThreadOk(s, t))
    && (forall n: Node :: PlaceOk(s, n))
  }

  ghost predicate Inv(s: State) { T.Inv(s.list) && HT.Inv(s.hp) && LinkInv(s) }
}
