/** Every step of the list with its hazard pointers is allowed by both machines, and keeps what ties them together. */
module GuardedListSafety {
  import opened Memory
  import L = SortedList
  import S = SortedListSafety
  import C = SortedListVerdicts
  import T = SortedListTheorems
  import H = HazardPointers
  import HS = HazardPointersSafety
  import HE = HazardPointersEntries
  import HT = HazardPointersTheorems
  import opened GuardedList

  // ---------- what a step of the hazard pointers leaves alone ----------

  /** Record r is on the list of u or is not, as before, and if so it is the same. */
  ghost predicate RecStays(p: H.State, p': H.State, u: Tid, r: Rec) {
    && (p'.rec(r) == H.Held(u) <==> p.rec(r) == H.Held(u))
    && (p.rec(r) == H.Held(u) ==> p'.node(r) == p.node(r) && p'.valid(r) == p.valid(r) && p'.stamp(r) == p.stamp(r))
  }

  ghost predicate ThreadStays(p: H.State, p': H.State, u: Tid) {
    p'.local(u) == p.local(u) && forall r: Rec :: RecStays(p, p', u, r)
  }

  lemma AcquiringStays(p: H.State, t: Tid, e: H.Env, u: Tid, r: Rec)
    requires H.RecInv(p) && H.InAcquire(p.local(t).pc) && !(u == t && p.local(t).pc.Push? && r == p.local(t).rec)
    ensures RecStays(p, H.Acquiring(p, t, e), u, r)
  {
    assert H.RecLocalOk(p, t) && H.ListOk(p, t) && H.RecOk(p, p.records);
  }

  lemma ReleasingStays(p: H.State, t: Tid, u: Tid, r: Rec)
    requires H.RecInv(p) && H.InRelease(p.local(t).pc)
    ensures RecStays(p, H.Releasing(p, t), u, r)
  {
    assert H.RecLocalOk(p, t);
  }

  /** A step inside a call changes no record that is held, but for the push of the one being acquired. */
  lemma MoveStays(p: H.State, t: Tid, e: H.Env, u: Tid, r: Rec)
    requires H.RecInv(p) && !(u == t && p.local(t).pc.Push? && r == p.local(t).rec)
    ensures RecStays(p, H.Do(p, H.Move(t, e)), u, r)
  {
    var pc := p.local(t).pc;
    HS.MoveIs(p, t, e);
    if H.InAcquire(pc) { AcquiringStays(p, t, e, u, r); }
    else if H.InRelease(pc) { ReleasingStays(p, t, u, r); }
    else if H.InUse(pc) { HS.UseStays(p, t); }
    else if H.InPark(pc) { HS.ParkStays(p, t); }
  }

  function Actor(p: H.State, a: H.Action): Tid { if a.Register? || a.SetThreshold? then p.threads else a.t }

  lemma MoveIsMine(p: H.State, t: Tid, e: H.Env, u: Tid)
    requires u != t
    ensures H.Do(p, H.Move(t, e)).local(u) == p.local(u)
  {
    var pc := p.local(t).pc;
    HS.MoveIs(p, t, e);
    if H.InAcquire(pc) { HS.AcquireStays(p, t, e); }
    else if H.InRelease(pc) { HS.ReleaseStays(p, t); }
    else if H.InUse(pc) { HS.UseStays(p, t); }
    else if H.InPark(pc) { HS.ParkStays(p, t); }
  }

  lemma OthersStay(p: H.State, a: H.Action, u: Tid)
    requires H.RecInv(p) && H.Allowed(p, a) && u != Actor(p, a)
    ensures ThreadStays(p, H.Do(p, a), u)
  {
    if a.Move? {
      MoveIsMine(p, a.t, a.env, u);
      forall r: Rec ensures RecStays(p, H.Do(p, a), u, r) { MoveStays(p, a.t, a.env, u, r); }
    } else {
      forall r: Rec ensures RecStays(p, H.Do(p, a), u, r) {}
    }
  }

  // ---------- threads that an action does not touch ----------

  /** The records and the call's pointers stay, and the call of the hazard pointers goes on. */
  lemma OwnKeeps(s: State, s': State, t: Tid)
    requires ThreadOk(s, t) && s'.hold(t) == s.hold(t) && s'.list.local(t) == s.list.local(t)
    requires (forall r: Rec :: RecordOk(s, t, r)) && forall r: Rec :: RecStays(s.hp, s'.hp, t, r)
    requires CallOk(s', t)
    ensures ThreadOk(s', t) && forall r: Rec :: RecordOk(s', t, r)
  {
    forall r: Rec ensures RecordOk(s', t, r) { assert RecordOk(s, t, r) && RecStays(s.hp, s'.hp, t, r); }
    var h := s.hold(t);
    if h.previous.To? { assert RecordOk(s, t, h.previous.to) && RecStays(s.hp, s'.hp, t, h.previous.to); }
    if h.current.To? { assert RecordOk(s, t, h.current.to) && RecStays(s.hp, s'.hp, t, h.current.to); }
  }

  lemma ThreadKeeps(s: State, s': State, u: Tid)
    requires ThreadOk(s, u) && s'.hold(u) == s.hold(u) && s'.list.local(u) == s.list.local(u)
    requires ThreadStays(s.hp, s'.hp, u) && forall r: Rec :: RecordOk(s, u, r)
    ensures ThreadOk(s', u) && forall r: Rec :: RecordOk(s', u, r)
  {
    OwnKeeps(s, s', u);
  }

  // ---------- safety of reclaiming ----------

  /** A node that a call may use has a hazard pointer of the thread. */
  lemma ProtectedIsGuarded(s: State, t: Tid, n: Node)
    requires ThreadOk(s, t) && L.Protects(s.list.local(t), n)
    ensures exists r: Rec :: H.Guards(s.hp, t, r, n)
  {
    var h := s.hold(t);
    assert Covers(s, t, h.previous, n) || Covers(s, t, h.current, n);
  }

  /** What a step of the hazard pointers does to the entry of one node. */
  lemma MovePlace(p: H.State, t: Tid, e: H.Env, n: Node)
    requires HT.Inv(p)
    ensures var p' := H.Do(p, H.Move(t, e));
      && (p'.place(n).NotRetired? <==> p.place(n).NotRetired?)
      && (p'.place(n).Done? <==> p.place(n).Done? || Reclaimed(p, t) == Just(n))
  {
    assert H.EntryOk(p, n) && H.EntryLocalOk(p, t);
    HE.WhereIsIt(p, t, n);
    var pc := p.local(t).pc;
    HS.MoveIs(p, t, e);
    if H.InAcquire(pc) { HS.AcquireStays(p, t, e); }
    else if H.InRelease(pc) { HS.ReleaseStays(p, t); }
    else if H.InUse(pc) { UsingPlace(p, t, n); }
    else if H.InPark(pc) { ParkingPlace(p, t, n); }
  }

  lemma UsingPlace(p: H.State, t: Tid, n: Node)
    requires H.EntryOk(p, n) && H.EntryLocalOk(p, t) && H.InUse(p.local(t).pc)
    ensures var p' := H.Using(p, t);
      && (p'.place(n).NotRetired? <==> p.place(n).NotRetired?)
      && (p'.place(n).Done? <==> p.place(n).Done? || Reclaimed(p, t) == Just(n))
  {
    HE.WhereIsIt(p, t, n);
  }

  lemma ParkingPlace(p: H.State, t: Tid, n: Node)
    requires H.EntryOk(p, n) && H.InPark(p.local(t).pc)
    ensures var p' := H.Parking(p, t);
      (p'.place(n).NotRetired? <==> p.place(n).NotRetired?) && (p'.place(n).Done? <==> p.place(n).Done?)
  {
    HE.WhereIsIt(p, t, n);
  }

  /** What the hazard pointers reclaim, the list lets them: the node was retired, and no call may use it. */
  lemma ReclaimAllowed(s: State, t: Tid, verdict: L.Verdict, memoryOk: bool, n: Node)
    requires Inv(s) && Reclaimed(s.hp, t) == Just(n) && Early(s, Go(t, verdict, memoryOk))
    ensures L.Allowed(s.list, L.Reclaim(n))
  {
    var a := H.Move(t, H.Env(memoryOk));
    MovePlace(s.hp, t, a.env, n);
    assert PlaceOk(s, n) && H.EntryOk(s.hp, n) && H.EntryLocalOk(s.hp, t);
    HE.WhereIsIt(s.hp, t, n);
    HT.ReclaimIsSafeNow(s.hp, a, n);
    forall u: Tid ensures !L.Protects(s.list.local(u), n) {
      assert ThreadOk(s, u);
      if L.Protects(s.list.local(u), n) { ProtectedIsGuarded(s, u, n); }
    }
  }

  // ---------- a step inside a call of the hazard pointers ----------

  /** The push of the record being acquired: it is the newest of the thread, and has the node. */
  lemma PushGives(s: State, t: Tid, memoryOk: bool)
    requires Inv(s) && s.hp.local(t).pc.Push?
    ensures var p, r := H.Do(s.hp, H.Move(t, H.Env(memoryOk))), s.hp.local(t).rec;
      && p.rec(r) == H.Held(t) && p.node(r) == H.To(s.list.local(t).cur) && p.local(t).pc.Idle?
         && s.hp.rec(r) != H.Held(t)
      && (s.hold(t).previous.To? ==> s.hp.stamp(s.hold(t).previous.to) < p.stamp(r))
  {
    assert H.RecLocalOk(s.hp, t) && ThreadOk(s, t);
    var q := s.hold(t).previous;
    if q.To? { assert RecordOk(s, t, q.to) && H.RecOk(s.hp, q.to); }
  }

  lemma PushKeeps(s: State, s': State, t: Tid, memoryOk: bool)
    requires Inv(s) && s.hp.local(t).pc.Push? && s'.list.local(t) == s.list.local(t)
    requires s'.hp == H.Do(s.hp, H.Move(t, H.Env(memoryOk)))
      && s'.hold(t) == s.hold(t).(current := H.To(s.hp.local(t).rec))
    ensures ThreadOk(s', t) && forall r: Rec :: RecordOk(s', t, r)
  {
    var taken := s.hp.local(t).rec;
    assert ThreadOk(s, t);
    PushGives(s, t, memoryOk);
    forall r: Rec ensures RecordOk(s', t, r) {
      assert RecordOk(s, t, r);
      if r != taken { MoveStays(s.hp, t, H.Env(memoryOk), t, r); }
    }
    var q := s.hold(t).previous;
    if q.To? {
      assert RecordOk(s, t, q.to) && RecordOk(s, t, taken);
      MoveStays(s.hp, t, H.Env(memoryOk), t, q.to);
    }
  }

  lemma AcquiringGoesOn(p: H.State, t: Tid, e: H.Env)
    requires H.InAcquire(p.local(t).pc)
    ensures var l, l' := p.local(t), H.Acquiring(p, t, e).local(t);
      (H.InAcquire(l'.pc) || l'.pc.Idle?) && l'.node == l.node && (l.pc.Push? ==> l'.pc.Idle?)
  {
  }

  /** The calls of the hazard pointers go on or return. */
  lemma CallGoesOn(p: H.State, t: Tid, e: H.Env)
    ensures var l, l' := p.local(t), H.Do(p, H.Move(t, e)).local(t);
      && (H.InAcquire(l'.pc) ==> H.InAcquire(l.pc) && !l.pc.Push? && l'.node == l.node)
      && (H.InRelease(l'.pc) ==> H.InRelease(l.pc))
      && (H.InPark(l'.pc) ==> H.InPark(l.pc))
      && (l'.pc.Gone? ==> H.InPark(l.pc) || l.pc.Gone?)
      && (l'.pc.Absent? ==> l.pc.Absent?)
      && (H.InScan(l'.pc) || H.InUse(l'.pc) ==> H.InScan(l.pc) || H.InUse(l.pc))
  {
    var pc := p.local(t).pc;
    HS.MoveIs(p, t, e);
    if H.InAcquire(pc) { AcquiringGoesOn(p, t, e); }
    else if H.InScan(pc) { HS.ScanStays(p, p.local(t), e); }
    else if H.InRelease(pc) { HS.ReleaseStays(p, t); }
    else if H.InUse(pc) { HS.UseStays(p, t); }
    else if H.InPark(pc) { HS.ParkStays(p, t); }
  }

  lemma BusyKeeps(s: State, s': State, t: Tid, memoryOk: bool)
    requires Inv(s) && Busy(s, t) && !s.hp.local(t).pc.Push? && s'.list.local(t) == s.list.local(t)
    requires s'.hp == H.Do(s.hp, H.Move(t, H.Env(memoryOk))) && s'.hold(t) == s.hold(t)
    ensures ThreadOk(s', t) && forall r: Rec :: RecordOk(s', t, r)
  {
    assert ThreadOk(s, t);
    CallGoesOn(s.hp, t, H.Env(memoryOk));
    forall r: Rec ensures RecStays(s.hp, s'.hp, t, r) { MoveStays(s.hp, t, H.Env(memoryOk), t, r); }
    OwnKeeps(s, s', t);
  }

  // ---------- an access to the list ----------

  /** The hazard pointers of t keep their nodes, and the one that was just acquired is good when the node was in
      place. */
  ghost predicate StillCovered(s: State, s': State, t: Tid) {
    && (forall p: H.Ptr, n: Node :: Covers(s, t, p, n) ==> Covers(s', t, p, n))
    && (Validates(s, t) ==> Covers(s', t, s.hold(t).current, s.list.local(t).cur))
  }

  /** t accesses its list, and its call goes on to what that site does with the hazard pointers. */
  ghost predicate Accesses(s: State, s': State, t: Tid, e: L.Env) {
    && ListStep(s, t) && e.hazardOk == s.hold(t).current.To?
    && s'.list.local(t) == L.Step(s.list, t, e).local(t)
    && s'.hold(t) == s.hold(t).(todo := HazardsAfter(s.list.local(t), s'.list.local(t)))
    && StillCovered(s, s', t)
  }

  lemma ReadHolds(s: State, s': State, t: Tid, e: L.Env)
    requires ThreadOk(s, t) && L.LocalOk(s.list, t) && Accesses(s, s', t, e) && s.list.local(t).pc.Read?
    ensures HoldOk(s', t)
  {
  }

  lemma CheckHolds(s: State, s': State, t: Tid, e: L.Env)
    requires ThreadOk(s, t) && L.LocalOk(s.list, t) && Accesses(s, s', t, e) && s.list.local(t).pc.Check?
    ensures HoldOk(s', t)
  {
  }

  lemma InsertHolds(s: State, s': State, t: Tid, e: L.Env)
    requires ThreadOk(s, t) && L.LocalOk(s.list, t) && Accesses(s, s', t, e) && L.InserterAt(s.list.local(t).pc)
    ensures HoldOk(s', t)
  {
  }

  lemma LockHolds(s: State, s': State, t: Tid, e: L.Env)
    requires ThreadOk(s, t) && L.LocalOk(s.list, t) && Accesses(s, s', t, e)
    requires var pc := s.list.local(t).pc; pc.ReadNext? || pc.Mark? || pc.Unmark?
    ensures HoldOk(s', t)
  {
  }

  lemma CutHolds(s: State, s': State, t: Tid, e: L.Env)
    requires ThreadOk(s, t) && L.LocalOk(s.list, t) && Accesses(s, s', t, e)
    requires s.list.local(t).pc.DrawMarked? || s.list.local(t).pc.Unlink?
    ensures HoldOk(s', t)
  {
  }

  lemma SetHolds(s: State, s': State, t: Tid, e: L.Env)
    requires ThreadOk(s, t) && L.LocalOk(s.list, t) && Accesses(s, s', t, e) && L.OnlySetValue(s.list.local(t).pc)
    ensures HoldOk(s', t)
  {
  }

  lemma TakeRefHolds(s: State, s': State, t: Tid, e: L.Env)
    requires ThreadOk(s, t) && L.LocalOk(s.list, t) && Accesses(s, s', t, e) && s.list.local(t).pc.TakeRef?
    ensures HoldOk(s', t)
  {
  }

  lemma EndHolds(s: State, s': State, t: Tid, e: L.Env)
    requires ThreadOk(s, t) && L.LocalOk(s.list, t) && Accesses(s, s', t, e)
    requires s.list.local(t).pc.Retire? || s.list.local(t).pc.Return?
    ensures HoldOk(s', t)
  {
  }

  lemma RestHolds(s: State, s': State, t: Tid, e: L.Env)
    requires ThreadOk(s, t) && L.LocalOk(s.list, t) && Accesses(s, s', t, e)
    requires var pc := s.list.local(t).pc; pc.Idle? || pc.DrawFirst? || pc.Skip?
    ensures HoldOk(s', t)
  {
  }

  /** After any access of the call its pointers are what the next part of it needs. */
  lemma AccessHolds(s: State, s': State, t: Tid, e: L.Env)
    requires ThreadOk(s, t) && L.LocalOk(s.list, t) && Accesses(s, s', t, e)
    ensures HoldOk(s', t)
  {
    var pc := s.list.local(t).pc;
    if pc.Read? { ReadHolds(s, s', t, e); }
    else if pc.Check? { CheckHolds(s, s', t, e); }
    else if L.InserterAt(pc) { InsertHolds(s, s', t, e); }
    else if L.OnlySetValue(pc) { SetHolds(s, s', t, e); }
    else if pc.ReadNext? || pc.Mark? || pc.Unmark? { LockHolds(s, s', t, e); }
    else if pc.DrawMarked? || pc.Unlink? { CutHolds(s, s', t, e); }
    else if pc.Idle? || pc.DrawFirst? || pc.Skip? { RestHolds(s, s', t, e); }
    else if pc.TakeRef? { TakeRefHolds(s, s', t, e); }
    else { EndHolds(s, s', t, e); }
  }

  /** What an access to the list makes of a retired node. */
  ghost predicate Fate(st: L.Status, st': L.Status) {
    (st'.Reclaimed? <==> st.Reclaimed?) && (st.Retired? ==> st'.Retired?)
  }

  lemma EndFate(s: L.State, t: Tid, e: L.Env, n: Node)
    requires L.ListInv(s) && (s.local(t).pc.TakeRef? || s.local(t).pc.Retire? || s.local(t).pc.Return?)
    ensures Fate(s.status(n), L.Step(s, t, e).status(n))
      && (s.local(t).pc.Retire? ==> L.Step(s, t, e).status(s.local(t).cur).Retired?)
  {
    assert L.LocalOk(s, t);
  }

  lemma InsertFate(s: L.State, t: Tid, e: L.Env, n: Node)
    requires L.ListInv(s) && L.InserterAt(s.local(t).pc)
    ensures Fate(s.status(n), L.Step(s, t, e).status(n))
  {
    assert L.LocalOk(s, t);
  }

  lemma LockFate(s: L.State, t: Tid, e: L.Env, n: Node)
    requires L.ListInv(s) && L.HasCur(s.local(t).pc)
    ensures Fate(s.status(n), L.Step(s, t, e).status(n))
  {
    assert L.LocalOk(s, t);
    if L.HasMark(s.local(t).pc) { S.UnmarkSucceeds(s, t); }
  }

  lemma MoveFate(s: L.State, t: Tid, e: L.Env, n: Node)
    requires L.ListInv(s)
    ensures Fate(s.status(n), L.Step(s, t, e).status(n))
  {
    var pc := s.local(t).pc;
    if pc.TakeRef? || pc.Retire? || pc.Return? { EndFate(s, t, e, n); }
    else if L.InserterAt(pc) { InsertFate(s, t, e, n); }
    else if L.HasCur(pc) { LockFate(s, t, e, n); }
  }

  // ---------- what an access asks of the hazard pointers ----------

  lemma ValidateAllowed(s: State, t: Tid)
    requires Inv(s) && ListStep(s, t) && Validates(s, t)
    ensures H.Allowed(s.hp, H.Validate(t, s.hold(t).current.to))
  {
    var l, r := s.list.local(t), s.hold(t).current.to;
    S.UnmarkedIsLive(s.list, t);
    assert ThreadOk(s, t) && RecordOk(s, t, r) && PlaceOk(s, l.cur);
  }

  lemma RetireAllowed(s: State, t: Tid, e: H.Env)
    requires Inv(s) && ListStep(s, t) && s.list.local(t).pc.Retire?
    ensures H.Allowed(s.hp, H.Reclaim(t, s.list.local(t).cur, e))
  {
    assert L.LocalOk(s.list, t) && PlaceOk(s, s.list.local(t).cur);
  }

  lemma AccessAllowed(s: State, a: Action)
    requires Inv(s) && a.Go? && ListStep(s, a.t) && HazardPart(s, a).Just?
    ensures H.Allowed(s.hp, HazardPart(s, a).value)
  {
    if Validates(s, a.t) { ValidateAllowed(s, a.t); } else { RetireAllowed(s, a.t, H.Env(a.memoryOk)); }
  }

  /** An access changes no record, but for the note that the current one is good. */
  lemma AccessStays(s: State, a: Action)
    requires Inv(s) && a.Go? && ListStep(s, a.t)
    ensures var p' := Do(s, a).hp; p'.rec == s.hp.rec && p'.stamp == s.hp.stamp && p'.node == s.hp.node
    ensures var p' := Do(s, a).hp;
      p'.local(a.t).pc.Idle? || (p'.local(a.t).pc.StartScan? && s.list.local(a.t).pc.Retire?)
    ensures StillCovered(s, Do(s, a), a.t)
  {
    assert ThreadOk(s, a.t);
    if Validates(s, a.t) { assert RecordOk(s, a.t, s.hold(a.t).current.to); }
  }

  lemma AccessKeeps(s: State, a: Action)
    requires Inv(s) && Allowed(s, a) && a.Go? && ListStep(s, a.t)
    ensures ThreadOk(Do(s, a), a.t) && forall r: Rec :: RecordOk(Do(s, a), a.t, r)
  {
    var s', t := Do(s, a), a.t;
    AccessStays(s, a);
    assert ThreadOk(s, t) && L.LocalOk(s.list, t);
    AccessHolds(s, s', t, EnvOf(s, a));
    forall r: Rec ensures RecordOk(s', t, r) { assert RecordOk(s, t, r); }
    ReturnHolds(s, s', t, EnvOf(s, a));
  }

  /** A call that has returned has no hazard pointer. */
  lemma ReturnHolds(s: State, s': State, t: Tid, e: L.Env)
    requires ThreadOk(s, t) && L.LocalOk(s.list, t) && Accesses(s, s', t, e)
    requires s'.hp.local(t).pc.Idle? || (s'.hp.local(t).pc.StartScan? && s.list.local(t).pc.Retire?)
    ensures CallOk(s', t)
  {
    C.StepIsMine(s.list, t, e);
  }

  lemma AccessPlaces(s: State, a: Action, n: Node)
    requires Inv(s) && Allowed(s, a) && a.Go? && ListStep(s, a.t)
    ensures PlaceOk(Do(s, a), n)
  {
    assert PlaceOk(s, n);
    MoveFate(s.list, a.t, EnvOf(s, a), n);
    if s.list.local(a.t).pc.Retire? {
      EndFate(s.list, a.t, EnvOf(s, a), n);
      RetireAllowed(s, a.t, H.Env(a.memoryOk));
    }
  }

  // ---------- between two accesses to the list ----------

  /** Whatever a call releases is the oldest hazard pointer of its thread. */
  lemma OldestReleased(s: State, t: Tid, r: Rec)
    requires LinkInv(s) && !Busy(s, t)
    requires var h := s.hold(t); h.previous == H.To(r) || (h.previous.Null? && h.current == H.To(r))
    ensures H.Allowed(s.hp, H.Release(t, r))
  {
    assert ThreadOk(s, t) && RecordOk(s, t, r);
    forall q: Rec | s.hp.rec(q) == H.Held(t) && q != r ensures s.hp.stamp(r) < s.hp.stamp(q) {
      assert RecordOk(s, t, q);
    }
  }

  lemma BetweenAllowed(s: State, a: Action)
    requires Inv(s) && a.Go? && !Busy(s, a.t) && !ListStep(s, a.t) && HazardPart(s, a).Just?
    ensures H.Allowed(s.hp, HazardPart(s, a).value)
  {
    assert ThreadOk(s, a.t);
    var h := s.hold(a.t);
    if h.todo.FreeCurrent? { OldestReleased(s, a.t, h.current.to); }
    else if !h.todo.Guard? { OldestReleased(s, a.t, h.previous.to); }
  }

  /** The record that is released is gone for the call, the other stays. */
  lemma BetweenRecords(s: State, a: Action, r: Rec)
    requires Inv(s) && a.Go? && !Busy(s, a.t) && !ListStep(s, a.t)
    ensures RecordOk(Do(s, a), a.t, r)
    ensures var p, p' := s.hp, Do(s, a).hp;
      p'.rec(r) == H.Held(a.t) ==>
        p.rec(r) == H.Held(a.t) && p'.node(r) == p.node(r) && p'.valid(r) == p.valid(r) && p'.stamp(r) == p.stamp(r)
  {
    assert ThreadOk(s, a.t) && RecordOk(s, a.t, r);
  }

  /** The acquire begins, or the current pointer becomes the previous one. */
  lemma GuardKeeps(s: State, a: Action)
    requires Inv(s) && a.Go? && !Busy(s, a.t) && (s.hold(a.t).todo.Guard? || s.hold(a.t).todo.Shift?)
    ensures ThreadOk(Do(s, a), a.t)
  {
    assert ThreadOk(s, a.t);
  }

  /** A release begins, or there is none to release; the other pointer of the call stays. */
  lemma FreeKeeps(s: State, s': State, t: Tid)
    requires ThreadOk(s, t) && s'.list.local(t) == s.list.local(t)
    requires var h, h' := s.hold(t), s'.hold(t);
      && h'.previous.Null? && h'.current == (if h.todo.FreeCurrent? then H.Null else h.current)
      && match h.todo
         case Advance => h'.todo.Shift?
         case FreePrevious | FreeCurrent => h'.todo.Ready?
         case LetGo => h'.todo.FreeCurrent?
         case _ => false
    requires s'.hp.local(t).pc.Idle? || s'.hp.local(t).pc.FirstRecord?
    requires forall n: Node :: Covers(s, t, s'.hold(t).current, n) ==> Covers(s', t, s'.hold(t).current, n)
    ensures ThreadOk(s', t)
  {
  }

  lemma ReleaseKeeps(s: State, a: Action)
    requires Inv(s) && a.Go? && !Busy(s, a.t) && !ListStep(s, a.t) && !s.hold(a.t).todo.Guard?
      && !s.hold(a.t).todo.Shift?
    ensures ThreadOk(Do(s, a), a.t)
  {
    assert ThreadOk(s, a.t);
    var r := s.hold(a.t).current;
    if r.To? { assert RecordOk(s, a.t, r.to); }
    FreeKeeps(s, Do(s, a), a.t);
  }

  lemma BetweenKeeps(s: State, a: Action)
    requires Inv(s) && a.Go? && !Busy(s, a.t) && !ListStep(s, a.t)
    ensures ThreadOk(Do(s, a), a.t) && forall r: Rec :: RecordOk(Do(s, a), a.t, r)
  {
    forall r: Rec ensures RecordOk(Do(s, a), a.t, r) { BetweenRecords(s, a, r); }
    if s.hold(a.t).todo.Guard? || s.hold(a.t).todo.Shift? { GuardKeeps(s, a); } else { ReleaseKeeps(s, a); }
  }

  // ---------- every action ----------

  lemma PartsAllowed(s: State, a: Action)
    requires Inv(s) && Allowed(s, a) && Early(s, a)
    ensures ListPart(s, a).Just? ==> L.Allowed(s.list, ListPart(s, a).value)
    ensures HazardPart(s, a).Just? ==> H.Allowed(s.hp, HazardPart(s, a).value)
  {
    match a
    case OfCaller(_) =>
    case OfDomain(h) => if h.Unregister? { NoneHeld(s, h.t); }
    case Go(t, verdict, memoryOk) =>
      if ListStep(s, t) {
        if HazardPart(s, a).Just? { AccessAllowed(s, a); }
      } else if Busy(s, t) {
        if Reclaimed(s.hp, t).Just? { ReclaimAllowed(s, t, verdict, memoryOk, Reclaimed(s.hp, t).value); }
      } else if HazardPart(s, a).Just? {
        BetweenAllowed(s, a);
      }
  }

  /** A thread that is in no call has no hazard pointer. */
  lemma NoneHeld(s: State, t: Tid)
    requires LinkInv(s) && s.list.local(t).pc.Idle?
    ensures forall r: Rec :: s.hp.rec(r) != H.Held(t)
  {
    assert ThreadOk(s, t);
    forall r: Rec ensures s.hp.rec(r) != H.Held(t) { assert RecordOk(s, t, r); }
  }

  lemma BothKeep(s: State, a: Action)
    requires Inv(s) && Allowed(s, a) && Early(s, a)
    ensures T.Inv(Do(s, a).list) && HT.Inv(Do(s, a).hp)
  {
    PartsAllowed(s, a);
    if ListPart(s, a).Just? { T.ActionKeeps(s.list, ListPart(s, a).value); }
    if HazardPart(s, a).Just? { HT.ActionKeeps(s.hp, HazardPart(s, a).value); }
  }

  /** The threads that are not in the action. */
  lemma OthersKeep(s: State, a: Action, u: Tid)
    requires Inv(s) && Allowed(s, a) && Early(s, a)
    requires match a
      case Go(t, _, _) => u != t
      case OfCaller(x) => !x.Begin? || u != x.t
      case OfDomain(h) => u != Actor(s.hp, h)
    ensures ThreadOk(Do(s, a), u) && forall r: Rec :: RecordOk(Do(s, a), u, r)
  {
    PartsAllowed(s, a);
    assert ThreadOk(s, u);
    if a.Go? && ListStep(s, a.t) { C.StepIsMine(s.list, a.t, EnvOf(s, a)); }
    if HazardPart(s, a).Just? { OthersStay(s.hp, HazardPart(s, a).value, u); }
    else { forall r: Rec ensures RecStays(s.hp, s.hp, u, r) {} }
    ThreadKeeps(s, Do(s, a), u);
  }

  lemma CallerKeeps(s: State, a: Action)
    requires Inv(s) && Allowed(s, a) && a.OfCaller? && a.a.Begin?
    ensures ThreadOk(Do(s, a), a.a.t) && forall r: Rec :: RecordOk(Do(s, a), a.a.t, r)
  {
    assert ThreadOk(s, a.a.t) && L.LocalOk(s.list, a.a.t);
    forall r: Rec ensures RecordOk(Do(s, a), a.a.t, r) { assert RecordOk(s, a.a.t, r); }
  }

  lemma DomainKeeps(s: State, a: Action)
    requires Inv(s) && Allowed(s, a) && a.OfDomain?
    ensures ThreadOk(Do(s, a), Actor(s.hp, a.h)) && forall r: Rec :: RecordOk(Do(s, a), Actor(s.hp, a.h), r)
  {
    var u := Actor(s.hp, a.h);
    assert ThreadOk(s, u) && H.RecLocalOk(s.hp, u);
    forall r: Rec ensures RecordOk(Do(s, a), u, r) { assert RecordOk(s, u, r); }
  }

  lemma GoKeeps(s: State, a: Action)
    requires Inv(s) && Allowed(s, a) && Early(s, a) && a.Go?
    ensures ThreadOk(Do(s, a), a.t) && forall r: Rec :: RecordOk(Do(s, a), a.t, r)
  {
    var s', t := Do(s, a), a.t;
    if ListStep(s, t) { AccessKeeps(s, a); }
    else if !Busy(s, t) { BetweenKeeps(s, a); }
    else if s.hp.local(t).pc.Push? { PushKeeps(s, s', t, a.memoryOk); }
    else { BusyKeeps(s, s', t, a.memoryOk); }
  }

  lemma BusyPlaces(s: State, a: Action, n: Node)
    requires Inv(s) && Allowed(s, a) && Early(s, a) && a.Go? && Busy(s, a.t)
    ensures PlaceOk(Do(s, a), n)
  {
    assert PlaceOk(s, n);
    PartsAllowed(s, a);
    MovePlace(s.hp, a.t, H.Env(a.memoryOk), n);
  }

  lemma PlacesKeep(s: State, a: Action, n: Node)
    requires Inv(s) && Allowed(s, a) && Early(s, a)
    ensures PlaceOk(Do(s, a), n)
  {
    assert PlaceOk(s, n) && L.NodeOk(s.list, n);
    if a.Go? && ListStep(s, a.t) { AccessPlaces(s, a, n); }
    else if a.Go? && Busy(s, a.t) { BusyPlaces(s, a, n); }
  }

  lemma EachKeeps(s: State, a: Action, u: Tid)
    requires Inv(s) && Allowed(s, a) && Early(s, a)
    ensures ThreadOk(Do(s, a), u) && forall r: Rec :: RecordOk(Do(s, a), u, r)
  {
    match a
    case Go(t, _, _) => if u == t { GoKeeps(s, a); } else { OthersKeep(s, a, u); }
    case OfCaller(x) => if x.Begin? && u == x.t { CallerKeeps(s, a); } else { OthersKeep(s, a, u); }
    case OfDomain(h) => if u == Actor(s.hp, h) { DomainKeeps(s, a); } else { OthersKeep(s, a, u); }
  }

  lemma ActionKeeps(s: State, a: Action)
    requires Inv(s) && Allowed(s, a) && Early(s, a)
    ensures Inv(Do(s, a))
  {
    BothKeep(s, a);
    var s' := Do(s, a);
    forall u: Tid ensures ThreadOk(s', u) { EachKeeps(s, a, u); }
    forall u: Tid, r: Rec ensures RecordOk(s', u, r) { EachKeeps(s, a, u); }
    forall n: Node ensures PlaceOk(s', n) { PlacesKeep(s, a, n); }
  }
}
