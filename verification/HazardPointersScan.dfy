/** The scan over other threads' records, one access at a time, misses no hazard pointer that guards a node retired
    before the scan began. */
module HazardPointersScan {
  import opened Memory
  import opened HazardPointers
  import opened HazardPointersSafety

  // ---------- the scanning thread's own steps ----------

  /** n is guarded by r of u, and the scan l is to find it. */
  ghost predicate Due(s: State, l: Local, u: Tid, r: Rec, n: Node) {
    Guards(s, u, r, n) && (n in l.found || Ahead(s, l, u, r))
  }

  lemma NextThreadOk(s: State, l: Local, u: Tid, r: Rec, n: Node)
    requires Guards(s, u, r, n) && (n in l.found || u < l.at)
    ensures Due(s, NextThread(l), u, r, n)
  {
  }

  lemma ThreadStepOk(s: State, l: Local, e: Env, u: Tid, r: Rec, n: Node)
    requires RecInv(s) && Due(s, l, u, r, n) && (l.pc.ScanHead? || l.pc.ScanActive? || l.pc.ScanPointers?)
    ensures Due(s, Scanning(s, l, e), u, r, n)
  {
    assert RecOk(s, r) && ListOk(s, u) && BelowHead(s, u, r);
    if l.pc.ScanActive? && !(l.at >= 0 && s.active(l.at)) { NextThreadOk(s, l, u, r, n); }
    if l.pc.ScanPointers? && !(l.at >= 0 && s.head(l.at).To?) { NextThreadOk(s, l, u, r, n); }
  }

  lemma RecordStepOk(s: State, l: Local, e: Env, u: Tid, r: Rec, n: Node)
    requires RecInv(s) && Due(s, l, u, r, n) && (l.pc.ScanNext? || l.pc.ScanNode?) && !Scanning(s, l, e).pc.Idle?
    ensures Due(s, Scanning(s, l, e), u, r, n)
  {
    assert ListOk(s, u);
    if l.pc.ScanNext? && l.cur.To? && u == l.at && Reaches(s, u, l.cur, r) {
      assert NoneSkipped(s, u, l.cur.to, r) && NextOk(s, u, l.cur.to);
    }
  }

  lemma MyScanOk(s: State, x: Tid, e: Env, u: Tid, r: Rec, n: Node)
    requires RecInv(s) && ScanInv(s) && InScan(s.local(x).pc)
    ensures ScanOk(Tick(Run(s, x, Scanning(s, s.local(x), e))), x, u, r, n)
  {
    var l, l' := s.local(x), Scanning(s, s.local(x), e);
    assert ScanOk(s, x, u, r, n);
    if Collects(l'.pc) && Guards(s, u, r, n) && !s.place(n).NotRetired? && s.retiredAt(n) < l'.start {
      MyScanIsDue(s, l, e, u, r, n);
    }
    AheadSame(s, Tick(Run(s, x, l')), l', u, r);
  }

  lemma MyScanIsDue(s: State, l: Local, e: Env, u: Tid, r: Rec, n: Node)
    requires RecInv(s) && InScan(l.pc) && Collects(Scanning(s, l, e).pc) && Guards(s, u, r, n)
    requires Collects(l.pc) && s.retiredAt(n) < l.start ==> Due(s, l, u, r, n)
    requires s.retiredAt(n) < Scanning(s, l, e).start
    ensures Due(s, Scanning(s, l, e), u, r, n)
  {
    if l.pc.ScanNext? || l.pc.ScanNode? { RecordStepOk(s, l, e, u, r, n); }
    else if !l.pc.StartScan? { ThreadStepOk(s, l, e, u, r, n); }
  }

  lemma AheadSame(s: State, s': State, l: Local, u: Tid, r: Rec)
    requires SameRecords(s, s')
    ensures Ahead(s', l, u, r) == Ahead(s, l, u, r)
  {
  }

  // ---------- steps of others ----------

  /** No action but a validation makes a record guard a node. */
  ghost predicate NoNewGuard(s: State, s': State, r: Rec) {
    s'.rec(r).Held? && s'.valid(r) ==> s.rec(r) == s'.rec(r) && s.valid(r) && s'.node(r) == s.node(r)
  }

  /** A record leaves a list only when it is released, and keeps its stamp while it is on it. */
  ghost predicate GuardRely(s: State, s': State, r: Rec) {
    && (s.rec(r).Held? || s.rec(r).Leaving? ==> s'.stamp(r) == s.stamp(r))
    && (s.rec(r).Held? ==> s'.rec(r) == s.rec(r) || s'.rec(r) == Leaving(s.rec(r).who))
    && (s.rec(r).Leaving? ==>
       s'.rec(r) == s.rec(r) || (s.local(s.rec(r).who).pc.Unlink? && s.local(s.rec(r).who).rec == r))
  }

  lemma ActionGuards(s: State, a: Action, r: Rec)
    requires RecInv(s) && Allowed(s, a) && !a.Move?
    ensures GuardRely(s, Do(s, a), r) && (NoNewGuard(s, Do(s, a), r) || (a.Validate? && a.r == r))
  {
    assert RecOk(s, r);
  }

  lemma AcquireGuards(s: State, t: Tid, e: Env, r: Rec)
    requires RecInv(s) && InAcquire(s.local(t).pc)
    ensures GuardRely(s, Acquiring(s, t, e), r) && NoNewGuard(s, Acquiring(s, t, e), r)
  {
    assert RecOk(s, r) && RecLocalOk(s, t) && ListOk(s, t);
  }

  lemma ReleaseGuards(s: State, t: Tid, r: Rec)
    requires RecInv(s) && InRelease(s.local(t).pc)
    ensures GuardRely(s, Releasing(s, t), r) && NoNewGuard(s, Releasing(s, t), r)
  {
    assert RecOk(s, r) && RecLocalOk(s, t);
  }

  lemma MoveGuards(s: State, t: Tid, e: Env, r: Rec)
    requires RecInv(s)
    ensures GuardRely(s, Do(s, Move(t, e)), r) && NoNewGuard(s, Do(s, Move(t, e)), r)
  {
    var pc := s.local(t).pc;
    MoveIs(s, t, e);
    if InAcquire(pc) { AcquireGuards(s, t, e, r); }
    else if InRelease(pc) { ReleaseGuards(s, t, r); }
    else if InUse(pc) { UseStays(s, t); }
    else if InPark(pc) { ParkStays(s, t); }
  }

  /** What the scan can reach it can still reach after the step of another: a released record is older than every
      record that still guards a node. */
  lemma StillReaches(s: State, s': State, u: Tid, p: Ptr, r: Rec)
    requires RecInv(s) && s.rec(r) == Held(u) && Reaches(s, u, p, r) && GuardRely(s, s', p.to) && GuardRely(s, s', r)
    ensures Reaches(s', u, p, r)
  {
    assert ListOk(s, u) && OldestFirst(s, u, p.to, r);
  }

  lemma StillAhead(s: State, s': State, l: Local, u: Tid, r: Rec)
    requires RecInv(s) && s.rec(r) == Held(u) && Ahead(s, l, u, r) && forall q: Rec :: GuardRely(s, s', q)
    ensures Ahead(s', l, u, r)
  {
    assert GuardRely(s, s', r);
    if l.pc.ScanNext? && u == l.at { assert GuardRely(s, s', l.cur.to); StillReaches(s, s', u, l.cur, r); }
    if l.pc.ScanNode? && u == l.at && l.cur != To(r) {
      assert GuardRely(s, s', l.nxt.to);
      StillReaches(s, s', u, l.nxt, r);
    }
  }

  /** A node is retired by a reclaim call, at that moment. */
  ghost predicate RetireRely(s: State, s': State, n: Node) {
    !s'.place(n).NotRetired? ==>
      (!s.place(n).NotRetired? && s'.retiredAt(n) == s.retiredAt(n)) || s'.retiredAt(n) == s.clock
  }

  lemma ActionRetires(s: State, a: Action, n: Node)
    requires EntryInv(s) && Allowed(s, a)
    ensures RetireRely(s, Do(s, a), n)
  {
    assert EntryOk(s, n);
    if a.Move? {
      MoveIs(s, a.t, a.env);
      if InUse(s.local(a.t).pc) { UseRetires(s, a.t, n); }
      else if InPark(s.local(a.t).pc) { ParkRetires(s, a.t, n); }
      else if InAcquire(s.local(a.t).pc) { AcquireStays(s, a.t, a.env); }
      else if InRelease(s.local(a.t).pc) { ReleaseStays(s, a.t); }
    }
  }

  lemma UseRetires(s: State, t: Tid, n: Node)
    requires EntryInv(s) && InUse(s.local(t).pc)
    ensures var s' := Using(s, t); s'.retiredAt == s.retiredAt && (!s'.place(n).NotRetired? ==> !s.place(n).NotRetired?)
  {
    assert EntryOk(s, n) && EntryLocalOk(s, t);
  }

  lemma ParkRetires(s: State, t: Tid, n: Node)
    requires EntryInv(s) && InPark(s.local(t).pc)
    ensures var s' := Parking(s, t);
      s'.retiredAt == s.retiredAt && (!s'.place(n).NotRetired? ==> !s.place(n).NotRetired?)
  {
    assert EntryOk(s, n);
  }

  lemma TheirScanOk(s: State, a: Action, x: Tid, u: Tid, r: Rec, n: Node)
    requires RecInv(s) && ScanInv(s) && EntryInv(s) && Allowed(s, a) && Do(s, a).local(x) == s.local(x)
    ensures ScanOk(Do(s, a), x, u, r, n)
  {
    var s' := Do(s, a);
    assert ScanOk(s, x, u, r, n) && TimeOk(s, x);
    ActionRetires(s, a, n);
    forall q: Rec ensures GuardRely(s, s', q) {
      if a.Move? {
        MoveGuards(s, a.t, a.env, q);
      } else {
        ActionGuards(s, a, q);
      }
    }
    if !(a.Validate? && a.r == r) {
      if a.Move? { MoveGuards(s, a.t, a.env, r); } else { ActionGuards(s, a, r); }
      if Guards(s, u, r, n) && Ahead(s, s.local(x), u, r) { StillAhead(s, s', s.local(x), u, r); }
    }
  }

  lemma MyUseOk(s: State, x: Tid, u: Tid, r: Rec, n: Node)
    requires ScanOk(s, x, u, r, n) && EntryInv(s) && InUse(s.local(x).pc)
    ensures ScanOk(Tick(Using(s, x)), x, u, r, n)
  {
    UseRetires(s, x, n);
    UseStays(s, x);
    UseTime(s, x);
  }

  lemma ActionKeepsScan(s: State, a: Action)
    requires RecInv(s) && ScanInv(s) && EntryInv(s) && Allowed(s, a)
    ensures ScanInv(Do(s, a))
  {
    forall x: Tid ensures TimeOk(Do(s, a), x) { ActionTime(s, a, x); }
    forall x: Tid, u: Tid, r: Rec, n: Node ensures ScanOk(Do(s, a), x, u, r, n) {
      ActionScanOk(s, a, x, u, r, n);
    }
  }

  lemma ActionScanOk(s: State, a: Action, x: Tid, u: Tid, r: Rec, n: Node)
    requires RecInv(s) && ScanInv(s) && EntryInv(s) && Allowed(s, a)
    ensures ScanOk(Do(s, a), x, u, r, n)
  {
    assert ScanOk(s, x, u, r, n);
    ActionTime(s, a, x);
    if a.Move? && a.t == x && InScan(s.local(x).pc) {
      MoveIs(s, x, a.env);
      MyScanOk(s, x, a.env, u, r, n);
    } else if a.Move? && a.t == x && InUse(s.local(x).pc) {
      MoveIs(s, x, a.env);
      MyUseOk(s, x, u, r, n);
    } else if Do(s, a).local(x) == s.local(x) {
      TheirScanOk(s, a, x, u, r, n);
    }
  }

  /** A thread collects only within its own scan. */
  lemma ActionTime(s: State, a: Action, x: Tid)
    requires RecInv(s) && ScanInv(s) && Allowed(s, a)
    ensures TimeOk(Do(s, a), x)
    ensures Collects(Do(s, a).local(x).pc) ==>
      (a.Move? && a.t == x && (InScan(s.local(x).pc) || InUse(s.local(x).pc))) || Do(s, a).local(x) == s.local(x)
  {
    assert TimeOk(s, x);
    if a.Move? { MoveTime(s, a.t, a.env, x); } else { BeginTime(s, a, x); }
  }

  lemma BeginTime(s: State, a: Action, x: Tid)
    requires RecInv(s) && TimeOk(s, x) && Allowed(s, a) && !a.Move?
    ensures TimeOk(Do(s, a), x)
    ensures Do(s, a).local(x) == s.local(x) || !Collects(Do(s, a).local(x).pc)
  {
    assert RecLocalOk(s, x);
  }

  lemma MoveTime(s: State, t: Tid, e: Env, x: Tid)
    requires TimeOk(s, x)
    ensures TimeOk(Do(s, Move(t, e)), x)
    ensures x != t || !(InScan(s.local(t).pc) || InUse(s.local(t).pc)) ==>
      Do(s, Move(t, e)).local(x) == s.local(x) || !Collects(Do(s, Move(t, e)).local(x).pc)
  {
    var pc := s.local(t).pc;
    MoveIs(s, t, e);
    if InAcquire(pc) { AcquireStays(s, t, e); }
    else if InRelease(pc) { ReleaseStays(s, t); }
    else if InScan(pc) { ScanTime(s, t, e, x); }
    else if InUse(pc) { UseStays(s, t); UseTime(s, t); }
    else if InPark(pc) { ParkStays(s, t); }
  }

  lemma ScanTime(s: State, t: Tid, e: Env, x: Tid)
    requires TimeOk(s, x) && InScan(s.local(t).pc)
    ensures var s' := Tick(Run(s, t, Scanning(s, s.local(t), e)));
      TimeOk(s', x) && (x != t ==> s'.local(x) == s.local(x))
  {
    ScanStart(s, s.local(t), e);
    ScanStays(s, s.local(t), e);
  }

  lemma UseTime(s: State, t: Tid)
    requires InUse(s.local(t).pc)
    ensures Using(s, t).local(t).start == s.local(t).start
  {
  }
}
