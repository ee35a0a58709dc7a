/** What every run of the hazard pointers does, for any number of threads. */
module HazardPointersTheorems {
  import opened Memory
  import opened HazardPointers
  import opened HazardPointersSafety
  import opened HazardPointersScan
  import opened HazardPointersEntries

  ghost predicate Inv(s: State) { RecInv(s) && ScanInv(s) && EntryInv(s) }

  function After(s: State, actions: seq<Action>): State {
    if actions == [] then s else Do(After(s, actions[..|actions| - 1]), actions[|actions| - 1])
  }

  ghost predicate AllowedAt(s: State, actions: seq<Action>, k: nat)
    requires k < |actions|
  {
    Allowed(After(s, actions[..k]), actions[k])
  }

  ghost predicate AllAllowed(s: State, actions: seq<Action>) {
    forall k: nat :: k < |actions| ==> AllowedAt(s, actions, k)
  }

  /** A run and one more action. */
  lemma OneMore(s: State, actions: seq<Action>, a: Action)
    requires AllAllowed(s, actions) && Allowed(After(s, actions), a)
    ensures AllAllowed(s, actions + [a]) && After(s, actions + [a]) == Do(After(s, actions), a)
  {
    var q := actions + [a];
    assert q[..|actions|] == actions;
    forall k: nat | k < |q| ensures AllowedAt(s, q, k) {
      if k < |actions| { assert q[..k] == actions[..k] && AllowedAt(s, actions, k); }
    }
  }

  lemma InitHolds(s: State)
    requires Init(s)
    ensures Inv(s)
  {
    forall u: Tid ensures ListOk(s, u) {
      assert forall r: Rec :: BelowHead(s, u, r) && NextOk(s, u, r);
      assert forall q: Rec, r: Rec :: NoneSkipped(s, u, q, r) && OldestFirst(s, u, q, r);
    }
    assert forall r: Rec :: RecOk(s, r);
    assert forall t: Tid :: RecLocalOk(s, t) && EntryLocalOk(s, t) && TimeOk(s, t);
    assert forall n: Node :: EntryOk(s, n);
    assert forall x: Tid, u: Tid, r: Rec, n: Node :: ScanOk(s, x, u, r, n);
  }

  lemma ActionKeeps(s: State, a: Action)
    requires Inv(s) && Allowed(s, a)
    ensures Inv(Do(s, a))
  {
    ActionKeepsRecs(s, a);
    ActionKeepsScan(s, a);
    ActionKeepsEntries(s, a);
  }

  lemma WithoutLast(s: State, actions: seq<Action>)
    requires actions != [] && AllAllowed(s, actions)
    ensures var q := actions[..|actions| - 1]; AllAllowed(s, q) && Allowed(After(s, q), actions[|actions| - 1])
  {
    var q := actions[..|actions| - 1];
    forall k: nat | k < |q| ensures AllowedAt(s, q, k) { assert AllowedAt(s, actions, k) && q[..k] == actions[..k]; }
    assert AllowedAt(s, actions, |q|);
  }

  lemma {:induction false} RunKeepsInv(s: State, actions: seq<Action>)
    requires Inv(s) && AllAllowed(s, actions)
    ensures Inv(After(s, actions))
  {
    if actions != [] {
      var n := |actions| - 1;
      WithoutLast(s, actions);
      RunKeepsInv(s, actions[..n]);
      ActionKeeps(After(s, actions[..n]), actions[n]);
    }
  }

  // ---------- safety ----------

  /** The action calls the reclaim function of n. */
  ghost predicate Reclaims(s: State, a: Action, n: Node) { !s.place(n).Done? && Do(s, a).place(n).Done? }

  lemma ReclaimedBy(s: State, a: Action, n: Node)
    requires Inv(s) && Allowed(s, a) && Reclaims(s, a, n)
    ensures a.Move? && n !in s.local(a.t).found
    ensures (s.local(a.t).pc.Filter? && s.place(n) == OnList(a.t))
      || (s.local(a.t).pc.SweepEach? && s.place(n) == Swept(a.t))
  {
    assert EntryOk(s, n);
    if a.Move? {
      var pc := s.local(a.t).pc;
      if InAcquire(pc) { AcquireStays(s, a.t, a.env); }
      else if InRelease(pc) { ReleaseStays(s, a.t); }
      else if InPark(pc) { ParkNeverReclaims(s, a.t, n); }
      else if InUse(pc) { UseReclaims(s, a.t, n); }
    }
  }

  lemma ParkNeverReclaims(s: State, t: Tid, n: Node)
    requires Parking(s, t).place(n).Done?
    ensures s.place(n).Done?
  {
  }

  lemma UseReclaims(s: State, t: Tid, n: Node)
    requires EntryInv(s) && InUse(s.local(t).pc) && !s.place(n).Done? && Using(s, t).place(n).Done?
    ensures n !in s.local(t).found
    ensures (s.local(t).pc.Filter? && s.place(n) == OnList(t)) || (s.local(t).pc.SweepEach? && s.place(n) == Swept(t))
  {
    assert EntryOk(s, n);
    WhereIsIt(s, t, n);
  }

  /** Hazard safety. In every run, a thread that reclaims a node of its own reclaim list does so when no thread holds
      a validated hazard pointer for it; the same holds of a swept node that was retired before the thread's scan
      began. */
  lemma ReclaimIsSafe(s: State, actions: seq<Action>, a: Action, n: Node)
    requires Init(s) && AllAllowed(s, actions) && Allowed(After(s, actions), a) && Reclaims(After(s, actions), a, n)
    requires var s' := After(s, actions); a.Move? ==> s'.local(a.t).pc.Filter? || s'.retiredAt(n) < s'.local(a.t).start
    ensures forall u: Tid, r: Rec :: !Guards(After(s, actions), u, r, n)
  {
    InitHolds(s);
    RunKeepsInv(s, actions);
    ReclaimIsSafeNow(After(s, actions), a, n);
  }

  lemma ReclaimIsSafeNow(s: State, a: Action, n: Node)
    requires Inv(s) && Allowed(s, a) && Reclaims(s, a, n)
    requires a.Move? ==> s.local(a.t).pc.Filter? || s.retiredAt(n) < s.local(a.t).start
    ensures forall u: Tid, r: Rec :: !Guards(s, u, r, n)
  {
    ReclaimedBy(s, a, n);
    WhereIsIt(s, a.t, n);
    assert EntryLocalOk(s, a.t);
    forall u: Tid, r: Rec ensures !Guards(s, u, r, n) { assert ScanOk(s, a.t, u, r, n); }
  }

  // ---------- conservation ----------

  /** Nothing retired is lost, and no entry has two owners: a retired node is on one reclaim list, or pending, or in
      one detached chain, there at one place only, or done. */
  lemma OneOwner(s: State, actions: seq<Action>, n: Node, t: Tid)
    requires Init(s) && AllAllowed(s, actions)
    ensures var s' := After(s, actions); var p := s'.place(n);
      && (n in s'.list(t) <==> p == OnList(t)) && (n in s'.pending <==> p == Parked)
         && (n in Chain(s'.local(t)) <==> p == Swept(t))
      && Distinct(s'.list(t)) && Distinct(s'.pending) && Distinct(Chain(s'.local(t)))
      && s'.count(t) == |s'.list(t)|
  {
    InitHolds(s);
    RunKeepsInv(s, actions);
    assert EntryOk(After(s, actions), n) && EntryLocalOk(After(s, actions), t);
  }

  ghost predicate PlaceMoves(p: Place, p': Place) {
    match p
    case NotRetired => p'.NotRetired? || p'.OnList?
    case OnList(t) => p' == OnList(t) || p'.Parked? || p'.Done?
    case Parked => p'.Parked? || p'.Swept?
    case Swept(t) => p' == Swept(t) || p'.Parked? || p'.Done?
    case Done => p'.Done?
  }

  /** An entry goes from the list of the thread that retired it to the pending list and back and forth between that
      and detached chains, or is reclaimed; once reclaimed it is never reclaimed again. */
  lemma EntryMovesOn(s: State, a: Action, n: Node)
    requires Inv(s) && Allowed(s, a)
    ensures PlaceMoves(s.place(n), Do(s, a).place(n))
  {
    if a.Move? {
      var t, pc := a.t, s.local(a.t).pc;
      WhereIsIt(s, t, n);
      assert EntryLocalOk(s, t);
      if InAcquire(pc) { AcquireStays(s, t, a.env); }
      else if InRelease(pc) { ReleaseStays(s, t); }
      else if InUse(pc) { UseMoves(s, t, n); }
      else if InPark(pc) { ParkMoves(s, t, n); }
    }
  }

  lemma UseMoves(s: State, t: Tid, n: Node)
    requires EntryOk(s, n) && EntryLocalOk(s, t) && InUse(s.local(t).pc)
    ensures PlaceMoves(s.place(n), Using(s, t).place(n))
  {
    WhereIsIt(s, t, n);
  }

  lemma ParkMoves(s: State, t: Tid, n: Node)
    requires EntryOk(s, n) && InPark(s.local(t).pc)
    ensures PlaceMoves(s.place(n), Parking(s, t).place(n))
  {
    WhereIsIt(s, t, n);
  }

  /** The walk of release always comes to its record: it never falls off the list. */
  lemma ReleaseFindsRecord(s: State, t: Tid)
    requires Inv(s) && s.local(t).pc.FindRecord?
    ensures s.local(t).cur.To? && (s.local(t).cur == To(s.local(t).rec) || s.next(s.local(t).cur.to).To?)
  {
    assert RecLocalOk(s, t) && ListOk(s, t);
    assert NoneSkipped(s, t, s.local(t).cur.to, s.local(t).rec);
  }

  /** A thread that unregisters leaves no entry behind. */
  lemma GoneHasNoEntries(s: State, t: Tid)
    requires Inv(s) && s.local(t).pc.Gone?
    ensures s.list(t) == [] && !s.active(t) && forall r: Rec :: s.rec(r) != Held(t)
  {
    assert EntryLocalOk(s, t) && RecLocalOk(s, t);
    forall r: Rec ensures s.rec(r) != Held(t) { assert RecOk(s, r); }
  }
}
