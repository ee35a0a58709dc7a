/** Every allowed action keeps the invariants of the hazard pointers. */
module HazardPointersSafety {
  import opened Memory
  import opened HazardPointers

  // ---------- what an action of one thread leaves to the others ----------

  ghost predicate RecSame(s: State, s': State, r: Rec) {
    s'.rec(r) == s.rec(r) && s'.next(r) == s.next(r) && s'.node(r) == s.node(r) && s'.stamp(r) == s.stamp(r)
      && s'.valid(r) == s.valid(r)
  }

  ghost predicate Mine(s: State, t: Tid, r: Rec) { s.rec(r).Unborn? || s.rec(r).who == t }

  ghost predicate RecRely(s: State, s': State, t: Tid, r: Rec) {
    && (Mine(s, t, r) <==> Mine(s', t, r))
    && (!Mine(s, t, r) ==> RecSame(s, s', r))
    && (s.rec(r).Unborn? && !s'.rec(r).Unborn? ==> s'.rec(r).who == t)
  }

  ghost predicate ThreadSame(s: State, s': State, u: Tid) {
    && s'.local(u) == s.local(u) && s'.head(u) == s.head(u) && s'.free(u) == s.free(u) && s'.active(u) == s.active(u)
  }

  /** Only t's own records and lists change. */
  ghost predicate Rely(s: State, s': State, t: Tid) {
    && s'.threads == s.threads && s'.clock == s.clock + 1
    && (forall u: Tid :: u != t ==> ThreadSame(s, s', u))
    && (forall r: Rec :: RecRely(s, s', t, r))
  }

  lemma OtherListOk(s: State, s': State, t: Tid, u: Tid)
    requires u != t && Rely(s, s', t) && ListOk(s, u)
    ensures ListOk(s', u)
  {
    assert ThreadSame(s, s', u);
    assert s.head(u).To? ==> RecRely(s, s', t, s.head(u).to);
    assert s.free(u).To? ==> RecRely(s, s', t, s.free(u).to);
    forall r: Rec ensures BelowHead(s', u, r) && NextOk(s', u, r) {
      assert BelowHead(s, u, r) && NextOk(s, u, r) && RecRely(s, s', t, r);
      assert s.next(r).To? ==> RecRely(s, s', t, s.next(r).to);
    }
    forall q: Rec, r: Rec ensures NoneSkipped(s', u, q, r) && OldestFirst(s', u, q, r) {
      assert NoneSkipped(s, u, q, r) && OldestFirst(s, u, q, r) && NextOk(s, u, q) && RecRely(s, s', t, q)
        && RecRely(s, s', t, r);
      assert s.next(q).To? ==> RecRely(s, s', t, s.next(q).to);
    }
  }

  lemma OtherLocalOk(s: State, s': State, t: Tid, u: Tid)
    requires u != t && Rely(s, s', t) && RecLocalOk(s, u)
    ensures RecLocalOk(s', u)
  {
    var l := s.local(u);
    assert ThreadSame(s, s', u) && RecRely(s, s', t, l.rec);
    assert l.cur.To? ==> RecRely(s, s', t, l.cur.to);
    assert l.prev.To? ==> RecRely(s, s', t, l.prev.to);
  }

  lemma RecKeeps(s: State, s': State, t: Tid)
    requires RecInv(s) && Rely(s, s', t) && ListOk(s', t) && RecLocalOk(s', t)
    requires forall r: Rec :: Mine(s, t, r) ==> RecOk(s', r)
    requires s'.records >= s.records && forall r: Rec {:trigger s.rec(r)} :: s.records <= r < s'.records ==>
      Mine(s', t, r) && !s'.rec(r).Unborn?
    ensures RecInv(s')
  {
    forall u: Tid ensures ListOk(s', u) { if u != t { OtherListOk(s, s', t, u); } }
    forall u: Tid ensures RecLocalOk(s', u) { if u != t { OtherLocalOk(s, s', t, u); } }
    forall r: Rec ensures RecOk(s', r) {
      assert RecOk(s, r) && RecRely(s, s', t, r);
      if !Mine(s, t, r) { assert ThreadSame(s, s', s.rec(r).who); }
    }
  }

  // ---------- steps that change no record ----------

  ghost predicate SameRecords(s: State, s': State) {
    && s'.head == s.head && s'.free == s.free && s'.next == s.next && s'.node == s.node
    && s'.rec == s.rec && s'.stamp == s.stamp && s'.valid == s.valid && s'.records == s.records
  }

  lemma SameList(s: State, s': State, u: Tid)
    requires SameRecords(s, s') && ListOk(s, u)
    ensures ListOk(s', u)
  {
    forall r: Rec ensures BelowHead(s', u, r) && NextOk(s', u, r) { assert BelowHead(s, u, r) && NextOk(s, u, r); }
    forall q: Rec, r: Rec ensures NoneSkipped(s', u, q, r) && OldestFirst(s', u, q, r) {
      assert NoneSkipped(s, u, q, r) && OldestFirst(s, u, q, r);
    }
  }

  lemma QuietKeeps(s: State, s': State, t: Tid)
    requires RecInv(s) && SameRecords(s, s') && s'.clock == s.clock + 1 && s'.threads == s.threads
    requires forall u: Tid {:trigger s'.local(u)} {:trigger s'.active(u)} :: u != t ==>
      s'.local(u) == s.local(u) && s'.active(u) == s.active(u)
    requires RecLocalOk(s', t)
    requires var pc, pc' := s.local(t).pc, s'.local(t).pc;
      && (InPark(pc') ==> InPark(pc) || forall r: Rec :: s.rec(r) != Held(t))
      && (s.active(t) && !s'.active(t) ==> InPark(pc))
      && (InRelease(pc) ==> InRelease(pc') && s'.local(t).rec == s.local(t).rec)
    ensures RecInv(s')
  {
    forall u: Tid ensures ListOk(s', u) { SameList(s, s', u); }
    forall r: Rec ensures RecOk(s', r) { assert RecOk(s, r); }
    forall u: Tid ensures RecLocalOk(s', u) { assert RecLocalOk(s, u); }
  }

  lemma ScanStays(s: State, l: Local, e: Env)
    requires InScan(l.pc)
    ensures var pc := Scanning(s, l, e).pc; InScan(pc) || pc.Filter? || pc.Idle?
  {
  }

  lemma ScanStart(s: State, l: Local, e: Env)
    requires InScan(l.pc)
    ensures var l' := Scanning(s, l, e); l'.start == (if l.pc.StartScan? && e.memoryOk then s.clock else l.start)
    ensures var l' := Scanning(s, l, e);
      (l.pc.StartScan? && !e.memoryOk ==> l'.pc.Idle?) && (l'.pc.Filter? ==> l'.kept == [])
  {
  }

  lemma ScanKeepsRecs(s: State, t: Tid, e: Env)
    requires RecInv(s) && InScan(s.local(t).pc)
    ensures RecInv(Tick(Run(s, t, Scanning(s, s.local(t), e))))
  {
    assert RecLocalOk(s, t);
    ScanStays(s, s.local(t), e);
    var s' := Tick(Run(s, t, Scanning(s, s.local(t), e)));
    QuietKeeps(s, s', t);
  }

  lemma UseStays(s: State, t: Tid)
    requires InUse(s.local(t).pc)
    ensures var s' := Using(s, t);
      SameRecords(s, s') && s'.threads == s.threads && s'.active == s.active && s'.clock == s.clock
    ensures var s' := Using(s, t);
      (InUse(s'.local(t).pc) || s'.local(t).pc.Idle?) && forall u: Tid :: u != t ==> s'.local(u) == s.local(u)
  {
  }

  lemma UseKeepsRecs(s: State, t: Tid)
    requires RecInv(s) && InUse(s.local(t).pc)
    ensures RecInv(Tick(Using(s, t)))
  {
    assert RecLocalOk(s, t);
    UseStays(s, t);
    QuietKeeps(s, Tick(Using(s, t)), t);
  }

  lemma ParkStays(s: State, t: Tid)
    requires InPark(s.local(t).pc)
    ensures var s' := Parking(s, t); SameRecords(s, s') && s'.threads == s.threads && s'.clock == s.clock
    ensures var s' := Parking(s, t);
      forall u: Tid :: u != t ==> s'.local(u) == s.local(u) && s'.active(u) == s.active(u)
    ensures var s' := Parking(s, t);
      if s.local(t).pc.TurnOff? then s'.local(t).pc.Gone? && !s'.active(t)
      else InPark(s'.local(t).pc) && s'.active == s.active
  {
  }

  lemma ParkKeepsRecs(s: State, t: Tid)
    requires RecInv(s) && InPark(s.local(t).pc)
    ensures RecInv(Tick(Parking(s, t)))
  {
    assert RecLocalOk(s, t);
    ParkStays(s, t);
    QuietKeeps(s, Tick(Parking(s, t)), t);
  }

  lemma BeginKeepsRecs(s: State, a: Action)
    requires RecInv(s) && Allowed(s, a) && (a.Acquire? || a.Reclaim? || a.Unregister?)
    ensures RecInv(Do(s, a))
  {
    assert RecLocalOk(s, a.t);
    QuietKeeps(s, Do(s, a), a.t);
  }

  lemma TakeKeepsRecs(s: State, t: Tid, e: Env)
    requires RecInv(s) && (s.local(t).pc.TakeHead? || (s.local(t).pc.TakeFree? && s.free(t).To?))
    ensures RecInv(Tick(Acquiring(s, t, e)))
  {
    assert RecLocalOk(s, t);
    QuietKeeps(s, Tick(Acquiring(s, t, e)), t);
  }

  lemma ReadKeepsRecs(s: State, t: Tid)
    requires RecInv(s) && (s.local(t).pc.FirstRecord? || s.local(t).pc.ReadFree?)
    ensures RecInv(Tick(Releasing(s, t)))
  {
    assert RecLocalOk(s, t) && ListOk(s, t);
    assert BelowHead(s, t, s.local(t).rec);
    QuietKeeps(s, Tick(Releasing(s, t)), t);
  }

  lemma FindKeepsRecs(s: State, t: Tid)
    requires RecInv(s) && s.local(t).pc.FindRecord?
    ensures RecInv(Tick(Releasing(s, t)))
  {
    assert RecLocalOk(s, t) && ListOk(s, t);
    var l := s.local(t);
    assert NoneSkipped(s, t, l.cur.to, l.rec) && NextOk(s, t, l.cur.to);
    QuietKeeps(s, Tick(Releasing(s, t)), t);
  }

  // ---------- what the lists of a thread go through ----------

  ghost predicate SameIn(s: State, s': State, u: Tid, r: Rec) {
    && (s'.rec(r) == Held(u) <==> s.rec(r) == Held(u)) && (s'.rec(r) == Leaving(u) <==> s.rec(r) == Leaving(u))
    && (s'.rec(r) == Spare(u) <==> s.rec(r) == Spare(u))
    && (Listed(s, u, r) || s.rec(r) == Spare(u) ==> s'.next(r) == s.next(r) && s'.stamp(r) == s.stamp(r))
  }

  /** The lists of u stay, or the oldest record of the list of u begins to leave it. */
  lemma ListStays(s: State, s': State, u: Tid)
    requires ListOk(s, u) && s'.head(u) == s.head(u) && s'.free(u) == s.free(u) && forall r: Rec :: SameIn(s, s', u, r)
    ensures ListOk(s', u)
  {
    forall r: Rec ensures BelowHead(s', u, r) && NextOk(s', u, r) {
      assert SameIn(s, s', u, r) && BelowHead(s, u, r) && NextOk(s, u, r);
      assert s.next(r).To? ==> SameIn(s, s', u, s.next(r).to);
      assert s.head(u).To? ==> SameIn(s, s', u, s.head(u).to);
    }
    forall q: Rec, r: Rec ensures NoneSkipped(s', u, q, r) && OldestFirst(s', u, q, r) {
      assert SameIn(s, s', u, r) && SameIn(s, s', u, q) && NoneSkipped(s, u, q, r) && OldestFirst(s, u, q, r)
        && NextOk(s, u, q);
      assert s.next(q).To? ==> SameIn(s, s', u, s.next(q).to);
    }
    assert s.head(u).To? ==> SameIn(s, s', u, s.head(u).to);
    assert s.free(u).To? ==> SameIn(s, s', u, s.free(u).to);
  }

  /** The first free record f is taken. */
  lemma ListAfterPop(s: State, s': State, u: Tid, f: Rec)
    requires ListOk(s, u) && s.free(u) == To(f) && s'.rec(f) == Taking(u) && s'.head(u) == s.head(u)
      && s'.free(u) == s.next(f)
    requires forall r: Rec :: r != f ==> SameIn(s, s', u, r)
    ensures ListOk(s', u)
  {
    assert NextOk(s, u, f);
    assert s.head(u).To? ==> SameIn(s, s', u, s.head(u).to);
    forall r: Rec ensures BelowHead(s', u, r) && NextOk(s', u, r) {
      assert r != f ==> SameIn(s, s', u, r);
      assert BelowHead(s, u, r) && NextOk(s, u, r) && NoneSkipped(s, u, r, f);
      assert s.next(r).To? && s.next(r).to != f ==> SameIn(s, s', u, s.next(r).to);
      assert s.head(u).To? ==> SameIn(s, s', u, s.head(u).to);
    }
    forall q: Rec, r: Rec ensures NoneSkipped(s', u, q, r) && OldestFirst(s', u, q, r) {
      assert r != f ==> SameIn(s, s', u, r);
      assert q != f ==> SameIn(s, s', u, q);
      assert NoneSkipped(s, u, q, r) && OldestFirst(s, u, q, r) && NextOk(s, u, q);
      assert s.next(q).To? && s.next(q).to != f ==> SameIn(s, s', u, s.next(q).to);
    }
    assert s.next(f).To? ==> SameIn(s, s', u, s.next(f).to);
  }

  /** Record f, the newest, is pushed on the list. */
  lemma ListAfterPush(s: State, s': State, u: Tid, f: Rec)
    requires ListOk(s, u) && s.rec(f) == Taking(u) && s'.rec(f) == Held(u) && s'.head(u) == To(f)
      && s'.free(u) == s.free(u)
    requires s'.next(f) == s.head(u) && forall r: Rec :: Listed(s, u, r) ==> s.stamp(r) < s'.stamp(f)
    requires forall r: Rec :: s.rec(r) != Leaving(u)
    requires forall r: Rec :: r != f ==> SameIn(s, s', u, r)
    ensures ListOk(s', u)
  {
    assert s.head(u).To? ==> SameIn(s, s', u, s.head(u).to);
    forall r: Rec ensures BelowHead(s', u, r) && NextOk(s', u, r) {
      assert r != f ==> SameIn(s, s', u, r);
      assert BelowHead(s, u, r) && NextOk(s, u, r);
      assert s.next(r).To? && s.next(r).to != f ==> SameIn(s, s', u, s.next(r).to);
    }
    forall q: Rec, r: Rec ensures NoneSkipped(s', u, q, r) && OldestFirst(s', u, q, r) {
      assert r != f ==> SameIn(s, s', u, r);
      assert q != f ==> SameIn(s, s', u, q);
      assert NoneSkipped(s, u, q, r) && NextOk(s, u, q) && BelowHead(s, u, r);
      assert s.next(q).To? && s.next(q).to != f ==> SameIn(s, s', u, s.next(q).to);
    }
    assert s.free(u).To? ==> SameIn(s, s', u, s.free(u).to);
  }

  ghost predicate Unlinked(s: State, s': State, u: Tid, f: Rec, prev: Ptr) {
    && ListOk(s, u) && s.rec(f) == Leaving(u) && s'.rec(f) == Loose(u) && s'.free(u) == s.free(u)
    && (if prev.To? then Listed(s, u, prev.to) && s.next(prev.to) == To(f) else s.head(u) == To(f))
    && s'.head(u) == (if prev.To? then s.head(u) else s.next(f))
    && (prev.To? ==>
       prev.to != f && s'.next(prev.to) == s.next(f) && s'.stamp(prev.to) == s.stamp(prev.to)
       && s'.rec(prev.to) == s.rec(prev.to))
    && (forall r: Rec :: r != f && prev != To(r) ==> SameIn(s, s', u, r))
  }

  lemma OldestIsLast(s: State, u: Tid, f: Rec)
    requires ListOk(s, u) && s.rec(f) == Leaving(u)
    ensures s.next(f).Null?
  {
    assert NextOk(s, u, f);
    assert s.next(f).To? ==> OldestFirst(s, u, f, s.next(f).to);
  }

  lemma UnlinkAt(s: State, s': State, u: Tid, f: Rec, prev: Ptr, r: Rec)
    requires Unlinked(s, s', u, f, prev)
    ensures BelowHead(s', u, r) && NextOk(s', u, r)
  {
    OldestIsLast(s, u, f);
    assert r != f && prev != To(r) ==> SameIn(s, s', u, r);
    assert BelowHead(s, u, r) && NextOk(s, u, r) && OldestFirst(s, u, f, r) && BelowHead(s, u, f);
    if Listed(s, u, r) && r != f { assert NoneSkipped(s, u, r, f); }
    if s.next(r).To? && s.next(r).to != f && prev != s.next(r) { assert SameIn(s, s', u, s.next(r).to); }
    if Listed(s, u, r) && s.next(r) == To(f) && prev.To? { OnePrev(s, u, r, prev.to, f); }
    if s.head(u).To? && s.head(u).to != f && prev != s.head(u) { assert SameIn(s, s', u, s.head(u).to); }
  }

  /** Only one record of the list is before f. */
  lemma OnePrev(s: State, u: Tid, q: Rec, r: Rec, f: Rec)
    requires ListOk(s, u) && Listed(s, u, q) && Listed(s, u, r) && s.next(q) == To(f) && s.next(r) == To(f)
    ensures q == r
  {
    assert NoneSkipped(s, u, q, r) && NoneSkipped(s, u, r, q) && NextOk(s, u, q) && NextOk(s, u, r);
  }

  lemma UnlinkSkips(s: State, s': State, u: Tid, f: Rec, prev: Ptr, q: Rec, r: Rec)
    requires Unlinked(s, s', u, f, prev)
    ensures NoneSkipped(s', u, q, r) && OldestFirst(s', u, q, r)
  {
    OldestIsLast(s, u, f);
    assert r != f && prev != To(r) ==> SameIn(s, s', u, r);
    assert q != f && prev != To(q) ==> SameIn(s, s', u, q);
    assert NoneSkipped(s, u, q, r) && OldestFirst(s, u, q, r) && NextOk(s, u, q);
    assert s.next(q).To? && s.next(q).to != f && prev != s.next(q) ==> SameIn(s, s', u, s.next(q).to);
    if Listed(s, u, r) { assert OldestFirst(s, u, f, r); }
  }

  /** Record f, the oldest, is taken off the list. */
  lemma ListAfterUnlink(s: State, s': State, u: Tid, f: Rec, prev: Ptr)
    requires Unlinked(s, s', u, f, prev)
    ensures ListOk(s', u)
  {
    assert BelowHead(s, u, f);
    OldestIsLast(s, u, f);
    forall r: Rec ensures BelowHead(s', u, r) && NextOk(s', u, r) { UnlinkAt(s, s', u, f, prev, r); }
    forall q: Rec, r: Rec ensures NoneSkipped(s', u, q, r) && OldestFirst(s', u, q, r) {
      UnlinkSkips(s, s', u, f, prev, q, r);
    }
    assert s.free(u).To? ==> SameIn(s, s', u, s.free(u).to);
    if prev.To? {
      assert BelowHead(s, u, prev.to) && NextOk(s, u, prev.to);
      assert prev != s.head(u) && s.head(u) != To(f) ==> SameIn(s, s', u, s.head(u).to);
    }
  }

  /** Record f is put on the free list. */
  lemma ListAfterFree(s: State, s': State, u: Tid, f: Rec)
    requires ListOk(s, u) && s.rec(f) == Loose(u) && s'.rec(f) == Spare(u) && s'.free(u) == To(f)
      && s'.head(u) == s.head(u)
    requires s'.next(f) == s.free(u) && forall r: Rec :: r != f ==> SameIn(s, s', u, r)
    ensures ListOk(s', u)
  {
    forall r: Rec ensures BelowHead(s', u, r) && NextOk(s', u, r) {
      assert r != f ==> SameIn(s, s', u, r);
      assert BelowHead(s, u, r) && NextOk(s, u, r);
      assert s.next(r).To? && s.next(r).to != f ==> SameIn(s, s', u, s.next(r).to);
      assert s.free(u).To? ==> SameIn(s, s', u, s.free(u).to);
      assert s.head(u).To? ==> SameIn(s, s', u, s.head(u).to);
    }
    forall q: Rec, r: Rec ensures NoneSkipped(s', u, q, r) && OldestFirst(s', u, q, r) {
      assert r != f ==> SameIn(s, s', u, r);
      assert q != f ==> SameIn(s, s', u, q);
      assert NoneSkipped(s, u, q, r) && OldestFirst(s, u, q, r) && NextOk(s, u, q) && NextOk(s, u, r);
      assert s.next(q).To? && s.next(q).to != f ==> SameIn(s, s', u, s.next(q).to);
    }
    assert s.head(u).To? ==> SameIn(s, s', u, s.head(u).to);
  }

  // ---------- acquire ----------

  lemma AllocKeepsRecs(s: State, t: Tid, e: Env)
    requires RecInv(s) && s.local(t).pc.TakeFree? && s.free(t).Null?
    ensures RecInv(Tick(Acquiring(s, t, e)))
  {
    assert RecLocalOk(s, t) && RecOk(s, s.records);
    var s' := Tick(Acquiring(s, t, e));
    if e.memoryOk {
      forall r: Rec ensures SameIn(s, s', t, r) {}
      ListStays(s, s', t);
      forall r: Rec ensures RecRely(s, s', t, r) && (Mine(s, t, r) ==> RecOk(s', r)) { assert RecOk(s, r); }
      RecKeeps(s, s', t);
    } else {
      QuietKeeps(s, s', t);
    }
  }

  lemma PopKeepsRecs(s: State, t: Tid, e: Env)
    requires RecInv(s) && s.local(t).pc.PopFree?
    ensures RecInv(Tick(Acquiring(s, t, e)))
  {
    assert RecLocalOk(s, t) && ListOk(s, t);
    var l := s.local(t);
    var s' := Tick(Acquiring(s, t, e));
    if s.free(t) == To(l.rec) {
      ListAfterPop(s, s', t, l.rec);
      forall r: Rec ensures RecRely(s, s', t, r) && (Mine(s, t, r) ==> RecOk(s', r)) { assert RecOk(s, r); }
      RecKeeps(s, s', t);
    } else {
      QuietKeeps(s, s', t);
    }
  }

  /** A store to a record of t that is on no list, or that t is releasing. */
  lemma StoreKeepsRecs(s: State, s': State, t: Tid)
    requires RecInv(s) && Rely(s, s', t) && RecLocalOk(s', t) && s'.head(t) == s.head(t) && s'.free(t) == s.free(t)
    requires s'.rec == s.rec && s'.stamp == s.stamp && s'.valid == s.valid && s'.records == s.records
      && s'.active == s.active
    requires forall r: Rec :: SameIn(s, s', t, r)
    requires s'.local(t).rec == s.local(t).rec && !InPark(s'.local(t).pc)
      && (InRelease(s.local(t).pc) ==> InRelease(s'.local(t).pc))
    requires forall r: Rec {:trigger s'.node(r)} :: s.valid(r) ==> s'.node(r) == s.node(r)
    ensures RecInv(s')
  {
    ListStays(s, s', t);
    forall r: Rec ensures Mine(s, t, r) ==> RecOk(s', r) { assert RecOk(s, r); }
    RecKeeps(s, s', t);
  }

  lemma FillKeepsRecs(s: State, t: Tid, e: Env)
    requires RecInv(s) && (s.local(t).pc.SetNode? || s.local(t).pc.SetNext?)
    ensures RecInv(Tick(Acquiring(s, t, e)))
  {
    assert RecLocalOk(s, t) && RecOk(s, s.local(t).rec);
    var s' := Tick(Acquiring(s, t, e));
    forall r: Rec ensures SameIn(s, s', t, r) && RecRely(s, s', t, r) {}
    StoreKeepsRecs(s, s', t);
  }

  lemma ClearKeepsRecs(s: State, t: Tid)
    requires RecInv(s) && (s.local(t).pc.ClearNode? || s.local(t).pc.SetFreeNext?)
    ensures RecInv(Tick(Releasing(s, t)))
  {
    assert RecLocalOk(s, t) && RecOk(s, s.local(t).rec);
    var s' := Tick(Releasing(s, t));
    forall r: Rec ensures SameIn(s, s', t, r) && RecRely(s, s', t, r) {}
    StoreKeepsRecs(s, s', t);
  }

  lemma PushKeepsRecs(s: State, t: Tid, e: Env)
    requires RecInv(s) && s.local(t).pc.Push?
    ensures RecInv(Tick(Acquiring(s, t, e)))
  {
    assert RecLocalOk(s, t);
    var s' := Tick(Acquiring(s, t, e));
    PushKeepsList(s, t, e);
    forall r: Rec ensures RecRely(s, s', t, r) && (Mine(s, t, r) ==> RecOk(s', r)) { assert RecOk(s, r); }
    RecKeeps(s, s', t);
  }

  lemma PushKeepsList(s: State, t: Tid, e: Env)
    requires RecInv(s) && s.local(t).pc.Push?
    ensures ListOk(Tick(Acquiring(s, t, e)), t)
  {
    assert RecLocalOk(s, t);
    forall r: Rec ensures (Listed(s, t, r) ==> s.stamp(r) < s.clock) && s.rec(r) != Leaving(t) { assert RecOk(s, r); }
    ListAfterPush(s, Tick(Acquiring(s, t, e)), t, s.local(t).rec);
  }

  // ---------- release ----------

  lemma UnlinkKeepsRecs(s: State, t: Tid)
    requires RecInv(s) && s.local(t).pc.Unlink?
    ensures RecInv(Tick(Releasing(s, t)))
  {
    assert RecLocalOk(s, t);
    var s' := Tick(Releasing(s, t));
    UnlinkKeepsList(s, t);
    forall r: Rec ensures RecRely(s, s', t, r) && (Mine(s, t, r) ==> RecOk(s', r)) { assert RecOk(s, r); }
    RecKeeps(s, s', t);
  }

  lemma UnlinkKeepsList(s: State, t: Tid)
    requires RecInv(s) && s.local(t).pc.Unlink?
    ensures ListOk(Tick(Releasing(s, t)), t)
  {
    assert RecLocalOk(s, t);
    var l := s.local(t);
    assert ListOk(s, t);
    assert l.prev.To? ==> NextOk(s, t, l.prev.to);
    ListAfterUnlink(s, Tick(Releasing(s, t)), t, l.rec, l.prev);
  }

  lemma FreeKeepsRecs(s: State, t: Tid)
    requires RecInv(s) && s.local(t).pc.PushFree?
    ensures RecInv(Tick(Releasing(s, t)))
  {
    assert RecLocalOk(s, t);
    var s' := Tick(Releasing(s, t));
    ListAfterFree(s, s', t, s.local(t).rec);
    forall r: Rec ensures RecRely(s, s', t, r) && (Mine(s, t, r) ==> RecOk(s', r)) { assert RecOk(s, r); }
    RecKeeps(s, s', t);
  }

  lemma ReleaseKeepsRecs(s: State, t: Tid, f: Rec)
    requires RecInv(s) && Allowed(s, Release(t, f))
    ensures RecInv(Do(s, Release(t, f)))
  {
    assert RecLocalOk(s, t) && ListOk(s, t);
    var s' := Do(s, Release(t, f));
    forall r: Rec ensures BelowHead(s', t, r) && NextOk(s', t, r) { assert BelowHead(s, t, r) && NextOk(s, t, r); }
    forall q: Rec, r: Rec ensures NoneSkipped(s', t, q, r) && OldestFirst(s', t, q, r) {
      assert NoneSkipped(s, t, q, r) && RecOk(s, q) && RecOk(s, r);
    }
    forall r: Rec ensures RecRely(s, s', t, r) && (Mine(s, t, r) ==> RecOk(s', r)) { assert RecOk(s, r); }
    RecKeeps(s, s', t);
  }

  lemma ValidateKeepsRecs(s: State, t: Tid, f: Rec)
    requires RecInv(s) && Allowed(s, Validate(t, f))
    ensures RecInv(Do(s, Validate(t, f)))
  {
    assert RecLocalOk(s, t);
    var s' := Do(s, Validate(t, f));
    forall r: Rec ensures SameIn(s, s', t, r) {}
    ListStays(s, s', t);
    forall r: Rec ensures RecRely(s, s', t, r) && (Mine(s, t, r) ==> RecOk(s', r)) { assert RecOk(s, r); }
    RecKeeps(s, s', t);
  }

  // ---------- what the steps of each call leave alone ----------

  ghost predicate SameEntries(s: State, s': State, t: Tid) {
    && s'.list == s.list && s'.count == s.count && s'.pending == s.pending && s'.place == s.place
       && s'.retiredAt == s.retiredAt
    && s'.clock == s.clock && (forall u: Tid :: u != t ==> s'.local(u) == s.local(u))
  }

  lemma AcquireStays(s: State, t: Tid, e: Env)
    requires InAcquire(s.local(t).pc)
    ensures SameEntries(s, Acquiring(s, t, e), t)
    ensures var pc := Acquiring(s, t, e).local(t).pc; InAcquire(pc) || pc.Idle?
  {
  }

  lemma ReleaseStays(s: State, t: Tid)
    requires InRelease(s.local(t).pc)
    ensures SameEntries(s, Releasing(s, t), t)
    ensures var pc := Releasing(s, t).local(t).pc; InRelease(pc) || pc.Idle?
  {
  }

  // ---------- every action ----------

  lemma RegisterKeepsRecs(s: State)
    requires RecInv(s)
    ensures RecInv(Do(s, Register))
  {
    var s', t := Do(s, Register), s.threads;
    assert RecLocalOk(s, t);
    forall r: Rec ensures s.rec(r).Unborn? || s.rec(r).who != t { assert RecOk(s, r); }
    forall u: Tid ensures ListOk(s', u) {
      if u != t {
        forall r: Rec ensures SameIn(s, s', u, r) {}
        ListStays(s, s', u);
      } else {
        assert forall r: Rec :: BelowHead(s', t, r) && NextOk(s', t, r);
        assert forall q: Rec, r: Rec :: NoneSkipped(s', t, q, r) && OldestFirst(s', t, q, r);
      }
    }
    forall r: Rec ensures RecOk(s', r) { assert RecOk(s, r); }
    forall u: Tid ensures RecLocalOk(s', u) { assert RecLocalOk(s, u); }
  }

  lemma ThresholdKeepsRecs(s: State, k: int)
    requires RecInv(s)
    ensures RecInv(Do(s, SetThreshold(k)))
  {
    var s' := Do(s, SetThreshold(k));
    forall u: Tid ensures ListOk(s', u) { SameList(s, s', u); }
    forall r: Rec ensures RecOk(s', r) { assert RecOk(s, r); }
    forall u: Tid ensures RecLocalOk(s', u) { assert RecLocalOk(s, u); }
  }

  /** A step is one of the part of the machine that its call is in. */
  lemma MoveIs(s: State, t: Tid, e: Env)
    ensures var pc, s' := s.local(t).pc, Do(s, Move(t, e));
      && (InAcquire(pc) ==> s' == Tick(Acquiring(s, t, e)))
      && (InRelease(pc) ==> s' == Tick(Releasing(s, t)))
      && (InScan(pc) ==> s' == Tick(Run(s, t, Scanning(s, s.local(t), e))))
      && (InUse(pc) ==> s' == Tick(Using(s, t)))
      && (InPark(pc) ==> s' == Tick(Parking(s, t)))
      && (pc.Absent? || pc.Idle? || pc.Gone? ==> s' == Tick(s))
  {
    var pc := s.local(t).pc;
    assert Do(s, Move(t, e)) == Tick(Step(s, t, e));
    if InAcquire(pc) { assert Step(s, t, e) == Acquiring(s, t, e); }
    else if InRelease(pc) { assert Step(s, t, e) == Releasing(s, t); }
    else if InScan(pc) { assert Step(s, t, e) == Run(s, t, Scanning(s, s.local(t), e)); }
    else if InUse(pc) { assert Step(s, t, e) == Using(s, t); }
    else if InPark(pc) { assert Step(s, t, e) == Parking(s, t); }
    else { assert Step(s, t, e) == s; }
  }

  lemma AcquireKeepsRecs(s: State, t: Tid, e: Env)
    requires RecInv(s) && InAcquire(s.local(t).pc)
    ensures RecInv(Tick(Acquiring(s, t, e)))
  {
    match s.local(t).pc
    case TakeFree => if s.free(t).To? { TakeKeepsRecs(s, t, e); } else { AllocKeepsRecs(s, t, e); }
    case PopFree => PopKeepsRecs(s, t, e);
    case TakeHead => TakeKeepsRecs(s, t, e);
    case SetNode | SetNext => FillKeepsRecs(s, t, e);
    case Push => PushKeepsRecs(s, t, e);
  }

  lemma WalkKeepsRecs(s: State, t: Tid)
    requires RecInv(s) && InRelease(s.local(t).pc)
    ensures RecInv(Tick(Releasing(s, t)))
  {
    match s.local(t).pc
    case FirstRecord | ReadFree => ReadKeepsRecs(s, t);
    case SetFreeNext | ClearNode => ClearKeepsRecs(s, t);
    case FindRecord => FindKeepsRecs(s, t);
    case Unlink => UnlinkKeepsRecs(s, t);
    case PushFree => FreeKeepsRecs(s, t);
  }

  lemma RestKeepsRecs(s: State, t: Tid)
    requires RecInv(s)
    ensures RecInv(Tick(s))
  {
    assert RecLocalOk(s, t);
    QuietKeeps(s, Tick(s), t);
  }

  lemma MoveKeepsRecs(s: State, t: Tid, e: Env)
    requires RecInv(s)
    ensures RecInv(Do(s, Move(t, e)))
  {
    var pc := s.local(t).pc;
    MoveIs(s, t, e);
    if InAcquire(pc) { AcquireKeepsRecs(s, t, e); }
    else if InRelease(pc) { WalkKeepsRecs(s, t); }
    else if InScan(pc) { ScanKeepsRecs(s, t, e); }
    else if InUse(pc) { UseKeepsRecs(s, t); }
    else if InPark(pc) { ParkKeepsRecs(s, t); }
    else { RestKeepsRecs(s, t); }
  }

  lemma ActionKeepsRecs(s: State, a: Action)
    requires RecInv(s) && Allowed(s, a)
    ensures RecInv(Do(s, a))
  {
    match a
    case Register => RegisterKeepsRecs(s);
    case SetThreshold(k) => ThresholdKeepsRecs(s, k);
    case Acquire(_, _) => BeginKeepsRecs(s, a);
    case Reclaim(_, _, _) => BeginKeepsRecs(s, a);
    case Unregister(_) => BeginKeepsRecs(s, a);
    case Validate(t, r) => ValidateKeepsRecs(s, t, r);
    case Release(t, r) => ReleaseKeepsRecs(s, t, r);
    case Move(t, e) => MoveKeepsRecs(s, t, e);
  }
}
