/** What every run of the list with its hazard pointers does, for any number of threads: the list never needs more of
    the hazard pointers than they give, nor they of the list. */
module GuardedListTheorems {
  import opened Memory
  import L = SortedList
  import T = SortedListTheorems
  import H = HazardPointers
  import HE = HazardPointersEntries
  import HS = HazardPointersSafety
  import HT = HazardPointersTheorems
  import opened GuardedList
  import opened GuardedListSafety

  // ---------- runs ----------

  function After(s: State, actions: seq<Action>): State {
    if actions == [] then s else Do(After(s, actions[..|actions| - 1]), actions[|actions| - 1])
  }

  ghost predicate AllowedAt(s: State, actions: seq<Action>, k: nat)
    requires k < |actions|
  {
    Allowed(After(s, actions[..k]), actions[k])
  }

  ghost predicate AllAllowed(s: State, actions: seq<Action>) {
    forall k: nat :: k < |actions| ==> AllowedAt(s, actions, k)
  }

  ghost predicate EarlyAt(s: State, actions: seq<Action>, k: nat)
    requires k < |actions|
  {
    Early(After(s, actions[..k]), actions[k])
  }

  /** Every entry swept in the run was retired before its sweeper collected the hazards. */
  ghost predicate AllEarly(s: State, actions: seq<Action>) {
    forall k: nat :: k < |actions| ==> EarlyAt(s, actions, k)
  }

  lemma InitHolds(s: State)
    requires Init(s)
    ensures Inv(s)
  {
    T.InitHolds(s.list);
    HT.InitHolds(s.hp);
    assert forall t: Tid, r: Rec :: RecordOk(s, t, r);
    assert forall t: Tid :: ThreadOk(s, t);
    assert forall n: Node :: PlaceOk(s, n);
  }

  /** A run without its last action, and that action. */
  lemma WithoutLast(s: State, actions: seq<Action>)
    requires actions != [] && AllAllowed(s, actions)
    ensures var q, a := actions[..|actions| - 1], actions[|actions| - 1];
      && AllAllowed(s, q) && Allowed(After(s, q), a)
      && (AllEarly(s, actions) ==> AllEarly(s, q) && Early(After(s, q), a))
  {
    var q := actions[..|actions| - 1];
    forall k: nat | k < |q| ensures AllowedAt(s, q, k) { assert AllowedAt(s, actions, k) && q[..k] == actions[..k]; }
    assert AllowedAt(s, actions, |q|);
    if AllEarly(s, actions) {
      forall k: nat | k < |q| ensures EarlyAt(s, q, k) { assert EarlyAt(s, actions, k) && q[..k] == actions[..k]; }
      assert EarlyAt(s, actions, |q|);
    }
  }

  lemma {:induction false} RunKeepsInv(s: State, actions: seq<Action>)
    requires Inv(s) && AllAllowed(s, actions) && AllEarly(s, actions)
    ensures Inv(After(s, actions))
  {
    if actions != [] {
      var n := |actions| - 1;
      WithoutLast(s, actions);
      RunKeepsInv(s, actions[..n]);
      ActionKeeps(After(s, actions[..n]), actions[n]);
    }
  }

  // ---------- a run of both is a run of each ----------

  function Append<A>(q: seq<A>, part: Maybe<A>): seq<A> { if part.Just? then q + [part.value] else q }

  /** What a run does to the list. */
  function ListRun(s: State, actions: seq<Action>): seq<L.Action> {
    if actions == [] then []
    else Append(ListRun(s, actions[..|actions| - 1]),
      ListPart(After(s, actions[..|actions| - 1]), actions[|actions| - 1]))
  }

  /** What it does to the hazard pointers. */
  function HazardRun(s: State, actions: seq<Action>): seq<H.Action> {
    if actions == [] then []
    else Append(HazardRun(s, actions[..|actions| - 1]),
      HazardPart(After(s, actions[..|actions| - 1]), actions[|actions| - 1]))
  }

  /** What callers promise of the composition is all that each machine assumes. Every run of both is a run of the list
      in which no node that a call protects is reclaimed, and a run of the hazard pointers in which every release is
      of the oldest hazard pointer of its thread, every validated node is one that was not retired, every node is
      retired once, and every thread that unregisters holds none. */
  lemma {:induction false} RunIsBoth(s: State, actions: seq<Action>)
    requires Init(s) && AllAllowed(s, actions) && AllEarly(s, actions)
    ensures T.AllAllowed(s.list, ListRun(s, actions)) && After(s, actions).list == T.After(s.list, ListRun(s, actions))
    ensures HT.AllAllowed(s.hp, HazardRun(s, actions)) && After(s, actions).hp == HT.After(s.hp, HazardRun(s, actions))
  {
    if actions != [] {
      var n := |actions| - 1;
      WithoutLast(s, actions);
      RunIsBoth(s, actions[..n]);
      var s1, a := After(s, actions[..n]), actions[n];
      InitHolds(s);
      RunKeepsInv(s, actions[..n]);
      PartsAllowed(s1, a);
      if ListPart(s1, a).Just? { T.OneMore(s.list, ListRun(s, actions[..n]), ListPart(s1, a).value); }
      if HazardPart(s1, a).Just? { HT.OneMore(s.hp, HazardRun(s, actions[..n]), HazardPart(s1, a).value); }
    }
  }

  // ---------- what each machine gets ----------

  /** Action a comes after the run. */
  ghost predicate Follows(s: State, actions: seq<Action>, a: Action) {
    && Init(s) && AllAllowed(s, actions) && AllEarly(s, actions)
    && Allowed(After(s, actions), a) && Early(After(s, actions), a)
  }

  lemma RunHas(s: State, actions: seq<Action>, a: Action)
    requires Follows(s, actions, a)
    ensures Inv(After(s, actions))
    ensures var s1 := After(s, actions); ListPart(s1, a).Just? ==> L.Allowed(s1.list, ListPart(s1, a).value)
    ensures var s1 := After(s, actions); HazardPart(s1, a).Just? ==> H.Allowed(s1.hp, HazardPart(s1, a).value)
  {
    InitHolds(s);
    RunKeepsInv(s, actions);
    PartsAllowed(After(s, actions), a);
  }

  /** No node is reclaimed while a call may use it. */
  lemma ReclaimedIsUnused(s: State, actions: seq<Action>, a: Action, n: Node, t: Tid)
    requires Follows(s, actions, a)
    requires ListPart(After(s, actions), a) == Just(L.Reclaim(n))
    ensures After(s, actions).list.status(n).Retired? && !L.Protects(After(s, actions).list.local(t), n)
  {
    RunHas(s, actions, a);
  }

  /** On every exit and restart of every call, each hazard pointer released is the oldest of its thread. */
  lemma ReleaseIsOldest(s: State, actions: seq<Action>, a: Action, t: Tid, r: Rec)
    requires Follows(s, actions, a)
    requires HazardPart(After(s, actions), a) == Just(H.Release(t, r))
    ensures var p := After(s, actions).hp;
      p.rec(r) == H.Held(t) && forall q: Rec :: p.rec(q) == H.Held(t) && q != r ==> p.stamp(r) < p.stamp(q)
  {
    RunHas(s, actions, a);
  }

  /** A node that passes the check after acquire is in the list, and was not given to the hazard pointers. */
  lemma ValidatedIsNotRetired(s: State, actions: seq<Action>, a: Action, t: Tid, r: Rec)
    requires Follows(s, actions, a)
    requires HazardPart(After(s, actions), a) == Just(H.Validate(t, r))
    ensures var s1 := After(s, actions); var n := s1.list.local(t).cur;
      s1.hp.node(r) == H.To(n) && s1.hp.place(n).NotRetired? && s1.list.status(n).Linked?
  {
    RunHas(s, actions, a);
    ValidatesLinked(After(s, actions), a, t, r);
  }

  lemma ValidatesLinked(s: State, a: Action, t: Tid, r: Rec)
    requires Inv(s) && Allowed(s, a) && HazardPart(s, a) == Just(H.Validate(t, r))
    ensures s.hp.node(r) == H.To(s.list.local(t).cur) && s.list.status(s.list.local(t).cur).Linked?
  {
    assert ThreadOk(s, t);
    T.ValidatedIsLinked(s.list, t);
  }

  /** A call that has returned, with an answer or an error, has released all its hazard pointers. */
  lemma ReturnedHoldsNone(s: State, actions: seq<Action>, t: Tid, r: Rec)
    requires Init(s) && AllAllowed(s, actions) && AllEarly(s, actions) && After(s, actions).list.local(t).pc.Idle?
    ensures After(s, actions).hp.rec(r) != H.Held(t) && After(s, actions).hp.rec(r) != H.Leaving(t)
  {
    InitHolds(s);
    RunKeepsInv(s, actions);
    IdleHoldsNone(After(s, actions), t, r);
  }

  lemma IdleHoldsNone(s: State, t: Tid, r: Rec)
    requires Inv(s) && s.list.local(t).pc.Idle?
    ensures s.hp.rec(r) != H.Held(t) && s.hp.rec(r) != H.Leaving(t)
  {
    NoneHeld(s, t);
    assert ThreadOk(s, t) && H.RecOk(s.hp, r);
  }

  /** A call never has more than two hazard pointers. */
  lemma AtMostTwo(s: State, actions: seq<Action>, t: Tid, q: Rec, r: Rec, x: Rec)
    requires Init(s) && AllAllowed(s, actions) && AllEarly(s, actions)
    requires var p := After(s, actions).hp; p.rec(q) == H.Held(t) && p.rec(r) == H.Held(t) && p.rec(x) == H.Held(t)
    ensures q == r || r == x || x == q
  {
    InitHolds(s);
    RunKeepsInv(s, actions);
    var s1 := After(s, actions);
    assert RecordOk(s1, t, q) && RecordOk(s1, t, r) && RecordOk(s1, t, x);
  }

  /** No access of a call to the memory of a node comes after the node was freed. */
  lemma TouchedIsAllocated(s: State, actions: seq<Action>, a: Action, n: Node)
    requires Follows(s, actions, a)
    requires a.Go? && ListStep(After(s, actions), a.t) && T.Touches(After(s, actions).list.local(a.t), n)
    ensures After(s, actions).list.refs(n) > 0
  {
    RunHas(s, actions, a);
    var s1 := After(s, actions);
    forall e: L.Env ensures L.Allowed(s1.list, L.Move(a.t, e)) { assert L.Allowed(s1.list, L.Move(a.t, EnvOf(s1, a))); }
    T.TouchedIsAllocated(s1.list, a.t, n);
  }

  // ---------- when no entry is handed over ----------

  /** No thread unregisters while entries are on its reclaim list. */
  ghost predicate LeavesNone(s: State, actions: seq<Action>) {
    forall k: nat :: k < |actions| ==> LeavesAt(s, actions, k)
  }

  ghost predicate LeavesAt(s: State, actions: seq<Action>, k: nat)
    requires k < |actions|
  {
    actions[k].OfDomain? && actions[k].h.Unregister? ==> After(s, actions[..k]).hp.list(actions[k].h.t) == []
  }

  ghost predicate NoneParked(p: H.State) {
    && (forall n: Node :: !p.place(n).Parked? && !p.place(n).Swept?)
    && (forall t: Tid {:trigger p.list(t)} :: H.InPark(p.local(t).pc) ==> p.list(t) == [])
  }

  lemma UsingParksNone(p: H.State, t: Tid, n: Node)
    requires NoneParked(p) && H.EntryInv(p) && H.InUse(p.local(t).pc)
    ensures !H.Using(p, t).place(n).Parked? && !H.Using(p, t).place(n).Swept?
  {
    assert H.EntryOk(p, n);
    HE.WhereIsIt(p, t, n);
  }

  lemma MoveParksNone(p: H.State, t: Tid, e: H.Env)
    requires HT.Inv(p) && NoneParked(p)
    ensures NoneParked(H.Do(p, H.Move(t, e)))
  {
    var p', pc := H.Do(p, H.Move(t, e)), p.local(t).pc;
    HS.MoveIs(p, t, e);
    forall n: Node ensures !p'.place(n).Parked? && !p'.place(n).Swept? {
      if H.InAcquire(pc) { HS.AcquireStays(p, t, e); }
      else if H.InRelease(pc) { HS.ReleaseStays(p, t); }
      else if H.InUse(pc) { UsingParksNone(p, t, n); }
    }
    forall u: Tid ensures H.InPark(p'.local(u).pc) ==> p'.list(u) == [] {
      CallGoesOn(p, t, e);
      if u != t { MoveIsMine(p, t, e, u); }
      if H.InAcquire(pc) { HS.AcquireStays(p, t, e); }
      else if H.InRelease(pc) { HS.ReleaseStays(p, t); }
    }
  }

  lemma ActionParksNone(p: H.State, a: H.Action)
    requires HT.Inv(p) && H.Allowed(p, a) && NoneParked(p) && (a.Unregister? ==> p.list(a.t) == [])
    ensures NoneParked(H.Do(p, a))
  {
    if a.Move? { MoveParksNone(p, a.t, a.env); }
    else if a.Register? { assert H.RecLocalOk(p, p.threads); }
  }

  lemma SweptHasPlace(p: H.State, t: Tid)
    requires H.EntryInv(p)
    ensures p.local(t).pc.SweepEach? && p.local(t).todo != [] ==> p.place(p.local(t).todo[0]) == H.Swept(t)
  {
    if p.local(t).pc.SweepEach? && p.local(t).todo != [] { assert H.EntryOk(p, p.local(t).todo[0]); }
  }

  lemma StaysEarly(s: State, a: Action)
    requires Inv(s) && Allowed(s, a) && NoneParked(s.hp)
    requires a.OfDomain? && a.h.Unregister? ==> s.hp.list(a.h.t) == []
    ensures Early(s, a) && NoneParked(Do(s, a).hp)
  {
    if a.Go? { SweptHasPlace(s.hp, a.t); }
    PartsAllowed(s, a);
    if HazardPart(s, a).Just? { ActionParksNone(s.hp, HazardPart(s, a).value); }
  }

  lemma LeavesWithoutLast(s: State, actions: seq<Action>)
    requires actions != [] && LeavesNone(s, actions)
    ensures var q, a := actions[..|actions| - 1], actions[|actions| - 1];
      LeavesNone(s, q) && (a.OfDomain? && a.h.Unregister? ==> After(s, q).hp.list(a.h.t) == [])
  {
    var q := actions[..|actions| - 1];
    forall k: nat | k < |q| ensures LeavesAt(s, q, k) { assert LeavesAt(s, actions, k) && q[..k] == actions[..k]; }
    assert LeavesAt(s, actions, |q|);
  }

  lemma EarlyAtEnd(s: State, actions: seq<Action>)
    requires actions != [] && AllEarly(s, actions[..|actions| - 1]) && EarlyAt(s, actions, |actions| - 1)
    ensures AllEarly(s, actions)
  {
    var q := actions[..|actions| - 1];
    forall k | 0 <= k < |actions| ensures EarlyAt(s, actions, k) {
      if k < |q| { assert q[..k] == actions[..k] && EarlyAt(s, q, k); }
    }
  }

  /** So the runs in which no thread leaves entries behind are all covered: nothing is ever swept in them. */
  lemma {:induction false} LeavesNoneIsEarly(s: State, actions: seq<Action>)
    requires Init(s) && AllAllowed(s, actions) && LeavesNone(s, actions)
    ensures AllEarly(s, actions) && NoneParked(After(s, actions).hp)
  {
    if actions != [] {
      var n := |actions| - 1;
      LeavesWithoutLast(s, actions);
      WithoutLast(s, actions);
      LeavesNoneIsEarly(s, actions[..n]);
      InitHolds(s);
      RunKeepsInv(s, actions[..n]);
      StaysEarly(After(s, actions[..n]), actions[n]);
      assert EarlyAt(s, actions, n);
      EarlyAtEnd(s, actions);
    }
  }

  /** Nothing but the promises of the callers is left when no thread leaves entries behind. */
  lemma RunIsBothAlone(s: State, actions: seq<Action>)
    requires Init(s) && AllAllowed(s, actions) && LeavesNone(s, actions)
    ensures T.AllAllowed(s.list, ListRun(s, actions)) && After(s, actions).list == T.After(s.list, ListRun(s, actions))
    ensures HT.AllAllowed(s.hp, HazardRun(s, actions)) && After(s, actions).hp == HT.After(s.hp, HazardRun(s, actions))
  {
    LeavesNoneIsEarly(s, actions);
    RunIsBoth(s, actions);
  }

  // ---------- from the list to the hazard pointers ----------

  /** The action takes n out of the list. */
  ghost predicate TakesOut(s: State, a: Action, n: Node) {
    ListPart(s, a).Just? && T.Removes(T.EffectOf(s.list, ListPart(s, a).value), n)
  }

  /** The action calls clds_hazard_pointers_reclaim for n. */
  ghost predicate HandsOver(s: State, a: Action, n: Node) {
    HazardPart(s, a).Just? && HazardPart(s, a).value.Reclaim? && HazardPart(s, a).value.n == n
  }

  ghost predicate TakesOutAt(s: State, actions: seq<Action>, n: Node, k: nat)
    requires k < |actions|
  {
    TakesOut(After(s, actions[..k]), actions[k], n)
  }

  ghost predicate HandsOverAt(s: State, actions: seq<Action>, n: Node, k: nat)
    requires k < |actions|
  {
    HandsOver(After(s, actions[..k]), actions[k], n)
  }

  ghost predicate TakenOutIn(s: State, actions: seq<Action>, n: Node) {
    exists k: nat :: k < |actions| && TakesOutAt(s, actions, n, k)
  }

  ghost predicate HandedOverIn(s: State, actions: seq<Action>, n: Node) {
    exists k: nat :: k < |actions| && HandsOverAt(s, actions, n, k)
  }

  lemma SameBefore(s: State, actions: seq<Action>, n: Node, k: nat)
    requires k < |actions| - 1
    ensures TakesOutAt(s, actions[..|actions| - 1], n, k) == TakesOutAt(s, actions, n, k)
    ensures HandsOverAt(s, actions[..|actions| - 1], n, k) == HandsOverAt(s, actions, n, k)
  {
    assert actions[..|actions| - 1][..k] == actions[..k];
  }

  lemma TakenOutLonger(s: State, actions: seq<Action>, n: Node)
    requires actions != []
    ensures var q, a := actions[..|actions| - 1], actions[|actions| - 1];
      TakenOutIn(s, actions, n) <==> TakenOutIn(s, q, n) || TakesOut(After(s, q), a, n)
  {
    var q := actions[..|actions| - 1];
    if k: nat :| k < |q| && TakesOutAt(s, q, n, k) { SameBefore(s, actions, n, k); }
    if k: nat :| k < |actions| && TakesOutAt(s, actions, n, k) { if k < |q| { SameBefore(s, actions, n, k); } }
    assert TakesOutAt(s, actions, n, |q|) <==> TakesOut(After(s, q), actions[|q|], n);
  }

  lemma HandedOverLonger(s: State, actions: seq<Action>, n: Node)
    requires actions != []
    ensures var q, a := actions[..|actions| - 1], actions[|actions| - 1];
      HandedOverIn(s, actions, n) <==> HandedOverIn(s, q, n) || HandsOver(After(s, q), a, n)
  {
    var q := actions[..|actions| - 1];
    if k: nat :| k < |q| && HandsOverAt(s, q, n, k) { SameBefore(s, actions, n, k); }
    if k: nat :| k < |actions| && HandsOverAt(s, actions, n, k) { if k < |q| { SameBefore(s, actions, n, k); } }
    assert HandsOverAt(s, actions, n, |q|) <==> HandsOver(After(s, q), actions[|q|], n);
  }

  predicate GivenUp(list: L.State, n: Node) { list.status(n).Retired? || list.status(n).Reclaimed? }

  /** A node goes out of the list, and on to the hazard pointers, by these actions alone. */
  lemma OutAndOver(s: State, a: Action, n: Node)
    requires Inv(s) && Allowed(s, a) && Early(s, a)
    ensures T.IsOut(Do(s, a).list, n) <==> T.IsOut(s.list, n) || TakesOut(s, a, n)
    ensures GivenUp(Do(s, a).list, n) <==> GivenUp(s.list, n) || HandsOver(s, a, n)
  {
    PartsAllowed(s, a);
    if ListPart(s, a).Just? {
      var x := ListPart(s, a).value;
      T.ActionEffect(s.list, x, n);
      GivesUp(s.list, x, n);
    }
  }

  lemma GivesUp(list: L.State, x: L.Action, n: Node)
    requires T.Inv(list) && L.Allowed(list, x)
    ensures GivenUp(L.Do(list, x), n) <==>
      GivenUp(list, n) || (x.Move? && list.local(x.t).pc.Retire? && list.local(x.t).cur == n)
  {
    T.ActionEffect(list, x, n);
    T.EffectIsRight(list, x);
    if !GivenUp(list, n) && GivenUp(L.Do(list, x), n) && L.Do(list, x).status(n).Retired? { T.RetiredOnce(list, x, n); }
  }

  lemma {:induction false} OutIsHistory(s: State, actions: seq<Action>, n: Node)
    requires Init(s) && AllAllowed(s, actions) && AllEarly(s, actions)
    ensures T.IsOut(After(s, actions).list, n) <==> TakenOutIn(s, actions, n)
    ensures GivenUp(After(s, actions).list, n) <==> HandedOverIn(s, actions, n)
  {
    if actions != [] {
      var q := actions[..|actions| - 1];
      WithoutLast(s, actions);
      OutIsHistory(s, q, n);
      InitHolds(s);
      RunKeepsInv(s, q);
      OutAndOver(After(s, q), actions[|q|], n);
      TakenOutLonger(s, actions, n);
      HandedOverLonger(s, actions, n);
    }
  }

  /** Every node that a call takes out of the list is handed to the hazard pointers before that call returns, and no
      other is: once no call is under way, the two have happened to the same nodes. */
  lemma TakenOutIsHandedOver(s: State, actions: seq<Action>, n: Node)
    requires Init(s) && AllAllowed(s, actions) && AllEarly(s, actions)
    requires forall t: Tid :: After(s, actions).list.local(t).pc.Idle?
    ensures TakenOutIn(s, actions, n) <==> HandedOverIn(s, actions, n)
  {
    OutIsHistory(s, actions, n);
    InitHolds(s);
    RunKeepsInv(s, actions);
    assert L.NodeOk(After(s, actions).list, n);
  }
}
