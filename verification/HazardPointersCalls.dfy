/** What the calls of the hazard pointers come to, over every run: each node handed to reclaim has one owner until it is
    reclaimed, a cycle keeps only what it saw a hazard pointer for, and acquire and release end with the records that
    they promise. */
module HazardPointersCalls {
  import opened Memory
  import opened HazardPointers
  import opened HazardPointersSafety
  import S = HazardPointersScan
  import E = HazardPointersEntries
  import opened HazardPointersTheorems

  // ---------- handing in ----------

  /** The action hands n to clds_hazard_pointers_reclaim, and there is memory for its entry. */
  predicate HandsIn(a: Action, n: Node) { a.Reclaim? && a.n == n && a.env.memoryOk }

  predicate HandedIn(actions: seq<Action>, n: Node) { exists k :: 0 <= k < |actions| && HandsIn(actions[k], n) }

  /** The action calls the reclaim function of n: the entry comes up in the filter or the sweep and has no hazard. */
  ghost predicate CallsReclaim(s: State, a: Action, n: Node) {
    && a.Move?
    && var l, q := s.local(a.t), s.list(a.t);
      && n !in l.found
      && (|| (l.pc.Filter? && |l.kept| < |q| && q[|l.kept|] == n)
          || (l.pc.SweepEach? && l.todo != [] && l.todo[0] == n))
  }

  ghost predicate CallsReclaimAt(s: State, actions: seq<Action>, n: Node, k: nat)
    requires k < |actions|
  {
    CallsReclaim(After(s, actions[..k]), actions[k], n)
  }

  ghost predicate ReclaimedIn(s: State, actions: seq<Action>, n: Node) {
    exists k: nat :: k < |actions| && CallsReclaimAt(s, actions, n, k)
  }

  lemma UseDone(s: State, t: Tid, e: Env, n: Node)
    requires EntryInv(s) && InUse(s.local(t).pc)
    ensures Using(s, t).place(n).Done? <==> s.place(n).Done? || CallsReclaim(s, Move(t, e), n)
  {
    assert EntryLocalOk(s, t);
    E.WhereIsIt(s, t, n);
  }

  lemma ParkDone(s: State, t: Tid, n: Node)
    requires EntryInv(s) && InPark(s.local(t).pc)
    ensures Parking(s, t).place(n).Done? <==> s.place(n).Done?
  {
    E.WhereIsIt(s, t, n);
  }

  /** A node comes in when it is handed in, and is done when its reclaim function is called. */
  lemma InAndOut(s: State, a: Action, n: Node)
    requires Inv(s) && Allowed(s, a)
    ensures var s' := Do(s, a);
      && (s'.place(n).NotRetired? <==> s.place(n).NotRetired? && !HandsIn(a, n))
      && (s'.place(n).Done? <==> s.place(n).Done? || CallsReclaim(s, a, n))
  {
    EntryMovesOn(s, a, n);
    if a.Move? {
      var t, pc := a.t, s.local(a.t).pc;
      MoveIs(s, t, a.env);
      if InAcquire(pc) { AcquireStays(s, t, a.env); }
      else if InRelease(pc) { ReleaseStays(s, t); }
      else if InUse(pc) { S.UseRetires(s, t, n); UseDone(s, t, a.env, n); }
      else if InPark(pc) { S.ParkRetires(s, t, n); ParkDone(s, t, n); }
    }
  }

  lemma HandedLonger(actions: seq<Action>, n: Node)
    requires actions != []
    ensures HandedIn(actions, n) <==> HandedIn(actions[..|actions| - 1], n) || HandsIn(actions[|actions| - 1], n)
  {
    var q := actions[..|actions| - 1];
    if k :| 0 <= k < |q| && HandsIn(q[k], n) { assert HandsIn(actions[k], n); }
  }

  lemma CallsLonger(s: State, actions: seq<Action>, n: Node, k: nat)
    requires k < |actions| - 1
    ensures CallsReclaimAt(s, actions[..|actions| - 1], n, k) == CallsReclaimAt(s, actions, n, k)
  {
    assert actions[..|actions| - 1][..k] == actions[..k];
  }

  lemma WasReclaimed(s: State, actions: seq<Action>, n: Node)
    requires actions != [] && ReclaimedIn(s, actions[..|actions| - 1], n)
    ensures ReclaimedIn(s, actions, n)
  {
    var k: nat :| k < |actions| - 1 && CallsReclaimAt(s, actions[..|actions| - 1], n, k);
    CallsLonger(s, actions, n, k);
  }

  lemma ReclaimedBefore(s: State, actions: seq<Action>, n: Node)
    requires ReclaimedIn(s, actions, n) && actions != [] && !CallsReclaimAt(s, actions, n, |actions| - 1)
    ensures ReclaimedIn(s, actions[..|actions| - 1], n)
  {
    var k: nat :| k < |actions| && CallsReclaimAt(s, actions, n, k);
    CallsLonger(s, actions, n, k);
  }

  lemma ReclaimedLonger(s: State, actions: seq<Action>, n: Node)
    requires actions != []
    ensures ReclaimedIn(s, actions, n) <==>
      ReclaimedIn(s, actions[..|actions| - 1], n) || CallsReclaimAt(s, actions, n, |actions| - 1)
  {
    if ReclaimedIn(s, actions[..|actions| - 1], n) { WasReclaimed(s, actions, n); }
    if ReclaimedIn(s, actions, n) && !CallsReclaimAt(s, actions, n, |actions| - 1) { ReclaimedBefore(s, actions, n); }
  }

  lemma {:induction false} PlaceIsHistory(s: State, actions: seq<Action>, n: Node)
    requires Init(s) && AllAllowed(s, actions)
    ensures After(s, actions).place(n).NotRetired? <==> !HandedIn(actions, n)
    ensures After(s, actions).place(n).Done? <==> ReclaimedIn(s, actions, n)
  {
    if actions != [] {
      var q := actions[..|actions| - 1];
      WithoutLast(s, actions);
      PlaceIsHistory(s, q, n);
      InitHolds(s);
      RunKeepsInv(s, q);
      InAndOut(After(s, q), actions[|q|], n);
      HandedLonger(actions, n);
      ReclaimedLonger(s, actions, n);
    }
  }

  /** The places where a node that was handed in can be. */
  datatype Owner = TheList(t: Tid) | ThePending | TheChain(t: Tid) | TheCaller

  ghost predicate Owns(s: State, actions: seq<Action>, o: Owner, n: Node) {
    match o
    case TheList(t) => n in After(s, actions).list(t)
    case ThePending => n in After(s, actions).pending
    case TheChain(t) => n in Chain(After(s, actions).local(t))
    case TheCaller => ReclaimedIn(s, actions, n)
  }

  ghost function OwnerAt(p: Place): Owner
    requires !p.NotRetired?
  {
    match p case OnList(t) => TheList(t) case Parked => ThePending case Swept(t) => TheChain(t) case Done => TheCaller
  }

  /** Nothing handed in is lost, and nothing has two owners: a node that was handed in during the run, whoever did so
      and whatever came between, is on one reclaim list, or pending, or in one detached chain, or its reclaim function
      was called; a node that was not handed in is nowhere. */
  lemma HandedInHasOneOwner(s: State, actions: seq<Action>, n: Node)
    requires Init(s) && AllAllowed(s, actions)
    ensures HandedIn(actions, n) <==> exists o :: Owns(s, actions, o, n)
    ensures forall o, o' :: Owns(s, actions, o, n) && Owns(s, actions, o', n) ==> o == o'
  {
    InitHolds(s);
    RunKeepsInv(s, actions);
    PlaceIsHistory(s, actions, n);
    var s' := After(s, actions);
    assert EntryOk(s', n);
    forall o | Owns(s, actions, o, n) ensures !s'.place(n).NotRetired? && o == OwnerAt(s'.place(n)) {
      if o.TheList? || o.TheChain? { E.WhereIsIt(s', o.t, n); }
    }
    if !s'.place(n).NotRetired? {
      var p := s'.place(n);
      if p.OnList? || p.Swept? { E.WhereIsIt(s', p.who, n); }
      assert Owns(s, actions, OwnerAt(p), n);
    }
  }

  /** The threshold that was set last. */
  function LastThreshold(initial: int, actions: seq<Action>): int {
    if actions == [] then initial
    else if actions[|actions| - 1].SetThreshold? then actions[|actions| - 1].k
    else LastThreshold(initial, actions[..|actions| - 1])
  }

  lemma MoveKeepsThreshold(s: State, t: Tid, e: Env)
    ensures Do(s, Move(t, e)).threshold == s.threshold
  {
    MoveIs(s, t, e);
  }

  lemma {:induction false} ThresholdIsLast(s: State, actions: seq<Action>)
    ensures After(s, actions).threshold == LastThreshold(s.threshold, actions)
  {
    if actions != [] {
      var q, a := actions[..|actions| - 1], actions[|actions| - 1];
      ThresholdIsLast(s, q);
      if a.Move? { MoveKeepsThreshold(After(s, q), a.t, a.env); }
    }
  }

  /** A reclaim call puts its node in front of the thread's list, and starts a cycle exactly when the list has then come
      to the threshold that was set last. */
  lemma HandInStartsCycle(s: State, actions: seq<Action>, t: Tid, n: Node)
    requires Init(s) && AllAllowed(s, actions) && Allowed(After(s, actions), Reclaim(t, n, Env(true)))
    ensures var s1 := After(s, actions); var s' := Do(s1, Reclaim(t, n, Env(true)));
      && s'.list(t) == [n] + s1.list(t) && n !in s1.list(t)
      && if |s'.list(t)| >= LastThreshold(s.threshold, actions) then s'.local(t).pc.StartScan? else s'.local(t).pc.Idle?
  {
    InitHolds(s);
    RunKeepsInv(s, actions);
    ThresholdIsLast(s, actions);
    assert EntryLocalOk(After(s, actions), t) && EntryOk(After(s, actions), n);
  }

  // ---------- what a cycle keeps ----------

  ghost predicate AllFound(q: seq<Node>, found: set<Node>) { forall n: Node :: n in q ==> n in found }

  /** The part of the cycle that is done has kept only what the scan found. */
  ghost predicate KeepsFound(s: State, t: Tid) {
    var l := s.local(t);
    && (l.pc.Filter? ==> AllFound(l.kept, l.found))
    && (l.pc.SweepTake? || l.pc.SweepEach? || l.pc.SweepRead? || l.pc.SweepPush? ==> AllFound(s.list(t), l.found))
    && (l.pc.SweepEach? || l.pc.SweepRead? || l.pc.SweepPush? ==> AllFound(l.kept, l.found))
  }

  lemma UseKeepsFound(s: State, t: Tid)
    requires EntryInv(s) && InUse(s.local(t).pc) && KeepsFound(s, t)
    ensures KeepsFound(Tick(Using(s, t)), t)
  {
    assert EntryLocalOk(s, t);
    var l := s.local(t);
    if l.pc.Filter? && |l.kept| >= |s.list(t)| { assert s.list(t) == s.list(t)[..|l.kept|]; }
  }

  /** A record's node field held n since the time given. */
  ghost predicate SeenAt(s: State, actions: seq<Action>, since: nat, n: Node, k: nat)
    requires k <= |actions|
  {
    var s' := After(s, actions[..k]); since <= s'.clock && exists r: Rec :: s'.node(r) == To(n)
  }

  ghost predicate SeenSince(s: State, actions: seq<Action>, since: nat, n: Node) {
    exists k: nat :: k <= |actions| && SeenAt(s, actions, since, n, k)
  }

  lemma SeenLonger(s: State, actions: seq<Action>, since: nat, n: Node)
    requires actions != []
    ensures SeenSince(s, actions[..|actions| - 1], since, n) ==> SeenSince(s, actions, since, n)
  {
    var q := actions[..|actions| - 1];
    if k: nat :| k <= |q| && SeenAt(s, q, since, n, k) {
      assert q[..k] == actions[..k] && SeenAt(s, actions, since, n, k);
    }
  }

  lemma SeenNow(s: State, actions: seq<Action>, since: nat, r: Rec, n: Node)
    requires var s' := After(s, actions); since <= s'.clock && s'.node(r) == To(n)
    ensures SeenSince(s, actions, since, n)
  {
    assert actions[..|actions|] == actions;
    assert SeenAt(s, actions, since, n, |actions|);
  }

  /** What the scan of t has found, a record named since the scan began. */
  ghost predicate FoundSeen(s: State, actions: seq<Action>, t: Tid) {
    var l := After(s, actions).local(t);
    Collects(l.pc) ==> forall n: Node :: n in l.found ==> SeenSince(s, actions, l.start, n)
  }

  /** The set found stays, or gets the node of the record that is looked at. */
  ghost predicate FindsMore(s: State, l: Local, l': Local) {
    && Collects(l.pc) && l'.start == l.start
    && forall n: Node :: n in l'.found ==> n in l.found || (l.cur.To? && s.node(l.cur.to) == To(n))
  }

  lemma ScanAdds(s: State, l: Local, e: Env)
    requires InScan(l.pc) && Collects(Scanning(s, l, e).pc)
    ensures (l.pc.StartScan? && Scanning(s, l, e).found == {}) || FindsMore(s, l, Scanning(s, l, e))
  {
  }

  lemma UseFinds(s: State, t: Tid)
    requires InUse(s.local(t).pc)
    ensures var l, l' := s.local(t), Using(s, t).local(t);
      l'.found == l.found && l'.start == l.start && (InUse(l'.pc) || l'.pc.Idle?)
  {
  }

  lemma MyScanStep(s: State, t: Tid, e: Env)
    requires InScan(s.local(t).pc)
    ensures KeepsFound(Tick(Run(s, t, Scanning(s, s.local(t), e))), t)
    ensures var l, l' := s.local(t), Scanning(s, s.local(t), e);
      Collects(l'.pc) ==> (l.pc.StartScan? && l'.found == {}) || FindsMore(s, l, l')
  {
    var l := s.local(t);
    ScanStays(s, l, e);
    ScanStart(s, l, e);
    if Collects(Scanning(s, l, e).pc) { ScanAdds(s, l, e); }
  }

  lemma NoCycleStep(s: State, t: Tid, e: Env)
    requires !InScan(s.local(t).pc) && !InUse(s.local(t).pc)
    ensures var pc := Do(s, Move(t, e)).local(t).pc; !Collects(pc) && !InUse(pc)
  {
    var pc := s.local(t).pc;
    MoveIs(s, t, e);
    if InAcquire(pc) { AcquireStays(s, t, e); }
    else if InRelease(pc) { ReleaseStays(s, t); }
    else if InPark(pc) { ParkStays(s, t); }
  }

  /** A step of a thread, in its cycle or not. */
  lemma MyCycleStep(s: State, t: Tid, e: Env)
    requires EntryInv(s) && KeepsFound(s, t)
    ensures KeepsFound(Do(s, Move(t, e)), t)
    ensures var l, l' := s.local(t), Do(s, Move(t, e)).local(t);
      Collects(l'.pc) ==> (l.pc.StartScan? && l'.found == {}) || FindsMore(s, l, l')
  {
    MoveIs(s, t, e);
    if InUse(s.local(t).pc) { UseFinds(s, t); UseKeepsFound(s, t); }
    else if InScan(s.local(t).pc) { MyScanStep(s, t, e); }
    else { NoCycleStep(s, t, e); }
  }

  /** An action of others, or one that begins a call. */
  lemma TheirCycleStep(s: State, a: Action, t: Tid)
    requires Inv(s) && Allowed(s, a) && KeepsFound(s, t) && !(a.Move? && a.t == t)
    ensures KeepsFound(Do(s, a), t)
    ensures Collects(Do(s, a).local(t).pc) ==> Do(s, a).local(t) == s.local(t)
  {
    S.ActionTime(s, a, t);
    if a.Move? {
      var pc := s.local(a.t).pc;
      MoveIs(s, a.t, a.env);
      if InAcquire(pc) { AcquireStays(s, a.t, a.env); }
      else if InRelease(pc) { ReleaseStays(s, a.t); }
    }
  }

  lemma FoundStep(s: State, actions: seq<Action>, t: Tid)
    requires actions != [] && FoundSeen(s, actions[..|actions| - 1], t)
    requires var s1, l' := After(s, actions[..|actions| - 1]), After(s, actions).local(t);
      && TimeOk(s1, t)
      && (Collects(l'.pc) ==>
         l'.found == {} || FindsMore(s1, s1.local(t), l') || l' == s1.local(t))
    ensures FoundSeen(s, actions, t)
  {
    var q := actions[..|actions| - 1];
    var l, l' := After(s, q).local(t), After(s, actions).local(t);
    if Collects(l'.pc) {
      forall n: Node | n in l'.found ensures SeenSince(s, actions, l'.start, n) {
        if n !in l.found { SeenNow(s, q, l.start, l.cur.to, n); }
        SeenLonger(s, actions, l'.start, n);
      }
    }
  }

  lemma {:induction false} CycleRun(s: State, actions: seq<Action>, t: Tid)
    requires Init(s) && AllAllowed(s, actions)
    ensures KeepsFound(After(s, actions), t) && FoundSeen(s, actions, t)
  {
    if actions != [] {
      var q, a := actions[..|actions| - 1], actions[|actions| - 1];
      WithoutLast(s, actions);
      CycleRun(s, q, t);
      InitHolds(s);
      RunKeepsInv(s, q);
      assert TimeOk(After(s, q), t);
      if a.Move? && a.t == t { MyCycleStep(After(s, q), t, a.env); } else { TheirCycleStep(After(s, q), a, t); }
      FoundStep(s, actions, t);
    }
  }

  /** A cycle ends for want of memory, during its scan, or after it has gone through both lists. */
  lemma CycleEndsAt(s: State, t: Tid, e: Env)
    requires (InScan(s.local(t).pc) || InUse(s.local(t).pc)) && Do(s, Move(t, e)).local(t).pc.Idle?
    ensures Do(s, Move(t, e)).list == s.list
    ensures var l, s' := s.local(t), Do(s, Move(t, e));
      || (InScan(l.pc) && !e.memoryOk && s'.pending == s.pending)
      || ((l.pc.SweepEach? || l.pc.SweepPush?) && s'.pending == l.kept + s.pending)
  {
    MoveIs(s, t, e);
    assert [] + s.pending == s.pending;
  }

  lemma LeftWasSeen(s: State, actions: seq<Action>, t: Tid, n: Node)
    requires KeepsFound(After(s, actions), t) && FoundSeen(s, actions, t)
    requires var l := After(s, actions).local(t);
      (l.pc.SweepEach? || l.pc.SweepPush?) && (n in After(s, actions).list(t) || n in l.kept)
    ensures SeenSince(s, actions, After(s, actions).local(t).start, n)
  {
    assert n in After(s, actions).local(t).found;
  }

  /** A cycle reclaims all that it can: when it ends, an entry that is still on the thread's list, and one that it puts
      back on the pending list, was named by a hazard pointer at some time since the cycle began; only an allocation
      that fails ends it earlier. */
  lemma CycleKeepsOnlyHazards(s: State, actions: seq<Action>, t: Tid, e: Env, n: Node)
    requires Init(s) && AllAllowed(s, actions)
    requires var s1 := After(s, actions);
      (InScan(s1.local(t).pc) || InUse(s1.local(t).pc)) && Do(s1, Move(t, e)).local(t).pc.Idle?
    ensures var s1 := After(s, actions); var l, s' := s1.local(t), Do(s1, Move(t, e));
      || (InScan(l.pc) && !e.memoryOk && s'.list == s1.list && s'.pending == s1.pending)
      || (&& s'.pending == l.kept + s1.pending
          && (n in s'.list(t) || n in l.kept ==> SeenSince(s, actions, l.start, n)))
  {
    var s1 := After(s, actions);
    CycleRun(s, actions, t);
    CycleEndsAt(s1, t, e);
    if !InScan(s1.local(t).pc) && (n in s1.list(t) || n in s1.local(t).kept) { LeftWasSeen(s, actions, t, n); }
  }

  // ---------- acquire ----------

  /** t holds the same hazard pointers, with the same order of age. */
  ghost predicate HoldsSame(s: State, s': State, t: Tid, r: Rec) {
    (s'.rec(r) == Held(t) <==> s.rec(r) == Held(t)) && (s.rec(r) == Held(t) ==> s'.stamp(r) == s.stamp(r))
  }

  /** What an action of others leaves to t, which is in a call. */
  lemma TheirsLeave(s: State, a: Action, t: Tid, r: Rec)
    requires RecInv(s) && Allowed(s, a) && !(a.Move? && a.t == t)
    requires InAcquire(s.local(t).pc) || InRelease(s.local(t).pc)
    ensures Do(s, a).local(t) == s.local(t) && HoldsSame(s, Do(s, a), t, r)
    ensures !s.rec(r).Unborn? && s.rec(r).who == t ==> Do(s, a).node(r) == s.node(r)
  {
    assert RecOk(s, r) && RecLocalOk(s, t);
    if a.Move? { TheirMoveLeaves(s, a.t, a.env, t, r); }
  }

  lemma TheirMoveLeaves(s: State, u: Tid, e: Env, t: Tid, r: Rec)
    requires RecInv(s) && u != t
    ensures var s' := Do(s, Move(u, e));
      && s'.local(t) == s.local(t) && HoldsSame(s, s', t, r)
      && (!s.rec(r).Unborn? && s.rec(r).who == t ==> s'.node(r) == s.node(r))
  {
    var pc := s.local(u).pc;
    MoveIs(s, u, e);
    if InAcquire(pc) { TheirAcquireLeaves(s, u, e, t, r); }
    else if InRelease(pc) { TheirReleaseLeaves(s, u, t, r); }
    else if InUse(pc) { UseStays(s, u); }
    else if InPark(pc) { ParkStays(s, u); }
  }

  lemma TheirAcquireLeaves(s: State, u: Tid, e: Env, t: Tid, r: Rec)
    requires RecInv(s) && u != t && InAcquire(s.local(u).pc)
    ensures var s' := Acquiring(s, u, e);
      && s'.local(t) == s.local(t) && HoldsSame(s, s', t, r)
      && (!s.rec(r).Unborn? && s.rec(r).who == t ==> s'.node(r) == s.node(r))
  {
    assert RecOk(s, r) && RecLocalOk(s, u) && ListOk(s, u);
  }

  lemma TheirReleaseLeaves(s: State, u: Tid, t: Tid, r: Rec)
    requires RecInv(s) && u != t && InRelease(s.local(u).pc)
    ensures var s' := Releasing(s, u);
      && s'.local(t) == s.local(t) && HoldsSame(s, s', t, r)
      && (!s.rec(r).Unborn? && s.rec(r).who == t ==> s'.node(r) == s.node(r))
  {
    assert RecOk(s, r) && RecLocalOk(s, u);
  }

  /** Where an acquire of t for n that began in s stands. */
  ghost predicate Acquires(s: State, s': State, t: Tid, n: Node) {
    s'.local(t).node == n && forall r: Rec :: HoldsSame(s, s', t, r)
  }

  lemma MyAcquireStep(s0: State, s: State, t: Tid, e: Env, n: Node)
    requires RecInv(s) && InAcquire(s.local(t).pc) && Acquires(s0, s, t, n) && !s.local(t).pc.Push?
    ensures Acquires(s0, Do(s, Move(t, e)), t, n)
    ensures Do(s, Move(t, e)).local(t).pc.Idle? ==> s.local(t).pc.TakeFree? && s.free(t).Null? && !e.memoryOk
  {
    MoveIs(s, t, e);
    assert RecLocalOk(s, t) && ListOk(s, t) && RecOk(s, s.records);
    var s' := Do(s, Move(t, e));
    forall r: Rec ensures HoldsSame(s0, s', t, r) { assert HoldsSame(s0, s, t, r); }
  }

  /** The call of t runs from s over all but the last of the actions, and returns with that. */
  ghost predicate ReturnsWith(s: State, actions: seq<Action>, t: Tid) {
    && actions != [] && After(s, actions).local(t).pc.Idle?
    && forall k :: 0 <= k < |actions| ==> !After(s, actions[..k]).local(t).pc.Idle?
  }

  lemma {:induction false} AcquireRun(s: State, actions: seq<Action>, t: Tid, n: Node)
    requires Inv(s) && InAcquire(s.local(t).pc) && s.local(t).node == n && AllAllowed(s, actions)
    requires forall k :: 0 <= k <= |actions| ==> !After(s, actions[..k]).local(t).pc.Idle?
    ensures Inv(After(s, actions)) && InAcquire(After(s, actions).local(t).pc) && Acquires(s, After(s, actions), t, n)
  {
    if actions != [] {
      var q, a := actions[..|actions| - 1], actions[|actions| - 1];
      WithoutLast(s, actions);
      assert forall k :: 0 <= k <= |q| ==> q[..k] == actions[..k];
      AcquireRun(s, q, t, n);
      var s1 := After(s, q);
      assert actions[..|actions|] == actions;
      ActionKeeps(s1, a);
      if a.Move? && a.t == t {
        MoveIs(s1, t, a.env);
        AcquireStays(s1, t, a.env);
        assert s1.local(t).pc.Push? ==> Do(s1, a).local(t).pc.Idle?;
        MyAcquireStep(s, s1, t, a.env, n);
      } else {
        forall r: Rec ensures HoldsSame(s, Do(s1, a), t, r) { TheirsLeave(s1, a, t, r); assert HoldsSame(s, s1, t, r); }
        TheirsLeave(s1, a, t, 0);
      }
    }
  }

  /** Record r is the newest hazard pointer of t, for n, and the others are as they were in s. */
  ghost predicate Gets(s: State, s': State, t: Tid, r: Rec, n: Node) {
    && s.rec(r) != Held(t) && s'.rec(r) == Held(t) && s'.node(r) == To(n)
    && forall q: Rec :: q != r ==> HoldsSame(s, s', t, q) && (s'.rec(q) == Held(t) ==> s'.stamp(q) < s'.stamp(r))
  }

  lemma LastAcquireStep(s0: State, s: State, t: Tid, e: Env, n: Node)
    requires RecInv(s) && s.local(t).pc.Push? && Acquires(s0, s, t, n)
    ensures var s' := Do(s, Move(t, e)); Gets(s0, s', t, s'.local(t).rec, n)
  {
    MoveIs(s, t, e);
    var s', r := Do(s, Move(t, e)), s.local(t).rec;
    assert RecLocalOk(s, t) && HoldsSame(s0, s, t, r);
    forall q: Rec | q != r ensures HoldsSame(s0, s', t, q) && (s'.rec(q) == Held(t) ==> s'.stamp(q) < s'.stamp(r)) {
      assert HoldsSame(s0, s, t, q) && RecOk(s, q);
    }
  }

  /** The last action of a call is a step of its thread, from a state within the call. */
  lemma LastIsMine(s: State, actions: seq<Action>, t: Tid)
    requires Inv(s) && AllAllowed(s, actions) && ReturnsWith(s, actions, t)
    requires var l := After(s, actions[..|actions| - 1]).local(t); InAcquire(l.pc) || InRelease(l.pc)
    ensures var q, a := actions[..|actions| - 1], actions[|actions| - 1];
      a.Move? && a.t == t && After(s, actions) == Do(After(s, q), Move(t, a.env))
  {
    WithoutLast(s, actions);
    RunKeepsInv(s, actions[..|actions| - 1]);
    var s2, a := After(s, actions[..|actions| - 1]), actions[|actions| - 1];
    if !(a.Move? && a.t == t) { TheirsLeave(s2, a, t, 0); }
  }

  lemma CallPrefix(s: State, actions: seq<Action>, t: Tid)
    requires AllAllowed(s, actions) && ReturnsWith(s, actions, t)
    ensures var q := actions[..|actions| - 1];
      AllAllowed(s, q) && forall k :: 0 <= k <= |q| ==> !After(s, q[..k]).local(t).pc.Idle?
  {
    var q := actions[..|actions| - 1];
    WithoutLast(s, actions);
    assert forall k :: 0 <= k <= |q| ==> q[..k] == actions[..k];
  }

  /** The acquire of t for n that began in s ends with action a in s2. */
  ghost predicate AcquireAnswers(s: State, s2: State, a: Action, t: Tid, n: Node) {
    && a.Move? && a.t == t
    && var s' := Do(s2, a);
      if s2.local(t).pc.Push? then Gets(s, s', t, s'.local(t).rec, n)
      else s2.free(t).Null? && !a.env.memoryOk && forall r: Rec :: HoldsSame(s, s', t, r)
  }

  /** acquire ends with the thread's newest hazard pointer, for the node asked for, and all others as they were; or it
      gives NULL, and leaves all as they were: only when its free list is empty and an allocation fails. */
  lemma AcquireReturns(s: State, actions: seq<Action>, t: Tid, n: Node)
    requires Inv(s) && Allowed(s, Acquire(t, n))
    requires var s1 := Do(s, Acquire(t, n)); AllAllowed(s1, actions) && ReturnsWith(s1, actions, t)
    ensures AcquireAnswers(s, After(Do(s, Acquire(t, n)), actions[..|actions| - 1]), actions[|actions| - 1], t, n)
  {
    var s1, q := Do(s, Acquire(t, n)), actions[..|actions| - 1];
    ActionKeeps(s, Acquire(t, n));
    CallPrefix(s1, actions, t);
    AcquireRun(s1, q, t, n);
    LastIsMine(s1, actions, t);
    var s2 := After(s1, q);
    forall r: Rec ensures HoldsSame(s, s2, t, r) {
      assert HoldsSame(s1, s2, t, r) && s1.rec == s.rec && s1.stamp == s.stamp;
    }
    assert Acquires(s, s2, t, n);
    AcquireEnd(s, s2, t, actions[|actions| - 1].env, n);
  }

  lemma AcquireEnd(s0: State, s: State, t: Tid, e: Env, n: Node)
    requires RecInv(s) && InAcquire(s.local(t).pc) && Acquires(s0, s, t, n) && Do(s, Move(t, e)).local(t).pc.Idle?
    ensures AcquireAnswers(s0, s, Move(t, e), t, n)
  {
    if s.local(t).pc.Push? { LastAcquireStep(s0, s, t, e, n); } else { MyAcquireStep(s0, s, t, e, n); }
  }

  // ---------- release ----------

  /** Where a release of r by t that began in s stands. */
  ghost predicate Releases(s: State, s': State, t: Tid, r: Rec) {
    && s'.local(t).rec == r && (forall q: Rec :: HoldsSame(s, s', t, q))
    && var pc := s'.local(t).pc; !pc.FirstRecord? && !pc.ClearNode? ==> s'.node(r) == Null
  }

  lemma MyReleaseStep(s0: State, s: State, t: Tid, e: Env, r: Rec)
    requires RecInv(s) && InRelease(s.local(t).pc) && Releases(s0, s, t, r)
    ensures var s' := Do(s, Move(t, e)); Releases(s0, s', t, r) && (s'.local(t).pc.Idle? ==> s'.rec(r) == Spare(t))
  {
    MoveIs(s, t, e);
    assert RecLocalOk(s, t);
    var s' := Do(s, Move(t, e));
    forall q: Rec ensures HoldsSame(s0, s', t, q) { assert HoldsSame(s0, s, t, q); }
  }

  lemma {:induction false} ReleaseRun(s: State, actions: seq<Action>, t: Tid, r: Rec)
    requires Inv(s) && s.local(t).pc.FirstRecord? && s.local(t).rec == r && AllAllowed(s, actions)
    requires forall k :: 0 <= k <= |actions| ==> !After(s, actions[..k]).local(t).pc.Idle?
    ensures Inv(After(s, actions)) && InRelease(After(s, actions).local(t).pc) && Releases(s, After(s, actions), t, r)
  {
    if actions != [] {
      var q, a := actions[..|actions| - 1], actions[|actions| - 1];
      WithoutLast(s, actions);
      assert forall k :: 0 <= k <= |q| ==> q[..k] == actions[..k];
      ReleaseRun(s, q, t, r);
      var s1 := After(s, q);
      assert actions[..|actions|] == actions;
      ActionKeeps(s1, a);
      if a.Move? && a.t == t {
        MoveIs(s1, t, a.env);
        ReleaseStays(s1, t);
        MyReleaseStep(s, s1, t, a.env, r);
      } else {
        TheirReleaseStep(s, s1, a, t, r);
      }
    }
  }

  lemma TheirReleaseStep(s0: State, s: State, a: Action, t: Tid, r: Rec)
    requires RecInv(s) && Allowed(s, a) && !(a.Move? && a.t == t) && InRelease(s.local(t).pc) && Releases(s0, s, t, r)
    ensures InRelease(Do(s, a).local(t).pc) && Releases(s0, Do(s, a), t, r)
  {
    assert RecLocalOk(s, t);
    TheirsLeave(s, a, t, r);
    forall q: Rec ensures HoldsSame(s0, Do(s, a), t, q) { TheirsLeave(s, a, t, q); assert HoldsSame(s0, s, t, q); }
  }

  /** release ends with its record cleared and on the free list of the thread, and all others held as they were. */
  lemma ReleaseReturns(s: State, actions: seq<Action>, t: Tid, r: Rec)
    requires Inv(s) && Allowed(s, Release(t, r))
    requires var s1 := Do(s, Release(t, r)); AllAllowed(s1, actions) && ReturnsWith(s1, actions, t)
    ensures var s' := After(Do(s, Release(t, r)), actions);
      s'.rec(r) == Spare(t) && s'.node(r) == Null && forall q: Rec :: q != r ==> HoldsSame(s, s', t, q)
  {
    var s1, q := Do(s, Release(t, r)), actions[..|actions| - 1];
    ActionKeeps(s, Release(t, r));
    CallPrefix(s1, actions, t);
    ReleaseRun(s1, q, t, r);
    LastIsMine(s1, actions, t);
    MyReleaseStep(s1, After(s1, q), t, actions[|actions| - 1].env, r);
    SameButOne(s, s1, After(s1, actions), t, r);
  }

  lemma SameButOne(s: State, s1: State, s': State, t: Tid, r: Rec)
    requires s1.rec == Put(s.rec, r, Leaving(t)) && s1.stamp == s.stamp && forall q: Rec :: HoldsSame(s1, s', t, q)
    ensures forall q: Rec :: q != r ==> HoldsSame(s, s', t, q)
  {
    forall q: Rec | q != r ensures HoldsSame(s, s', t, q) { assert HoldsSame(s1, s', t, q); }
  }
}
