/** Every reclaim entry has one owner, in every state. */
module HazardPointersEntries {
  import opened Memory
  import opened HazardPointers
  import opened HazardPointersSafety

  lemma DistinctSum(p: seq<Node>, q: seq<Node>)
    requires Distinct(p) && Distinct(q) && forall n: Node :: !(n in p && n in q)
    ensures Distinct(p + q)
  {
    forall i, j | 0 <= i < j < |p + q| ensures (p + q)[i] != (p + q)[j] {
      assert i < |p| ==> p[i] in p;
      assert j >= |p| ==> q[j - |p|] in q;
    }
  }

  lemma DistinctParts(p: seq<Node>, q: seq<Node>)
    requires Distinct(p + q)
    ensures Distinct(p) && Distinct(q) && forall n: Node :: !(n in p && n in q)
  {
    assert forall i :: 0 <= i < |p| ==> p[i] == (p + q)[i];
    assert forall i :: 0 <= i < |q| ==> q[i] == (p + q)[|p| + i];
  }

  /** Taking out the element at k. */
  lemma Remove(q: seq<Node>, k: nat)
    requires k < |q| && Distinct(q)
    ensures var q' := q[..k] + q[k + 1..]; Distinct(q') && forall n: Node :: n in q' <==> n in q && n != q[k]
  {
    var q' := q[..k] + q[k + 1..];
    assert forall i :: 0 <= i < |q'| ==> q'[i] == q[if i < k then i else i + 1];
    forall n: Node | n in q && n != q[k] ensures n in q' {
      var i :| 0 <= i < |q| && q[i] == n;
      assert q'[if i < k then i else i - 1] == n;
    }
  }

  // ---------- what an action of t leaves to the other threads ----------

  ghost predicate Others(s: State, s': State, t: Tid) {
    && s'.clock == s.clock + 1
    && (forall u: Tid {:trigger s'.list(u)} {:trigger s'.local(u)} {:trigger s'.count(u)} :: u != t ==>
          s'.list(u) == s.list(u) && s'.count(u) == s.count(u) && s'.local(u) == s.local(u))
  }

  lemma EntriesKeep(s: State, s': State, t: Tid)
    requires EntryInv(s) && Others(s, s', t) && Distinct(s'.pending) && EntryLocalOk(s', t)
    requires forall n: Node :: EntryOk(s', n)
    requires forall n: Node {:trigger s'.retiredAt(n)} :: s.place(n).OnList? && s.place(n).who != t ==>
      s'.retiredAt(n) == s.retiredAt(n)
    ensures EntryInv(s')
  {
    forall u: Tid ensures EntryLocalOk(s', u) {
      assert EntryLocalOk(s, u);
      if u != t {
        forall n: Node | n in s'.list(u) ensures s'.retiredAt(n) == s.retiredAt(n) { assert EntryOk(s, n); }
      }
    }
  }

  predicate MineOrFree(p: Place, t: Tid) { p.OnList? || p.Swept? ==> p.who == t }

  lemma EntryMoves(s: State, s': State, t: Tid, n: Node)
    requires EntryOk(s, n) && Others(s, s', t)
    requires s'.place(n) == s.place(n) || (MineOrFree(s.place(n), t) && MineOrFree(s'.place(n), t))
    requires n in s'.pending <==> s'.place(n).Parked?
    requires n in s'.list(t) <==> s'.place(n) == OnList(t)
    requires n in Chain(s'.local(t)) <==> s'.place(n) == Swept(t)
    ensures EntryOk(s', n)
  {
  }

  lemma WhereIsIt(s: State, t: Tid, n: Node)
    requires EntryOk(s, n)
    ensures n in s.pending <==> s.place(n).Parked?
    ensures n in s.list(t) <==> s.place(n) == OnList(t)
    ensures n in Chain(s.local(t)) <==> s.place(n) == Swept(t)
  {
  }

  /** Nothing moves. */
  lemma EntriesSame(s: State, s': State, t: Tid)
    requires EntryInv(s) && Others(s, s', t) && s'.list(t) == s.list(t) && s'.pending == s.pending
      && s'.count(t) == s.count(t)
    requires s'.place == s.place && s'.retiredAt == s.retiredAt && Chain(s'.local(t)) == Chain(s.local(t))
    requires var l, l' := s.local(t), s'.local(t);
      EntryPcOk(s.list(t), l') && (Collects(l'.pc) ==> (Collects(l.pc) && l'.start == l.start) || l'.start == s.clock)
    ensures EntryInv(s')
  {
    assert EntryLocalOk(s, t);
    forall n: Node ensures EntryOk(s', n) { assert EntryOk(s, n); }
    EntriesKeep(s, s', t);
  }

  // ---------- step by step ----------

  lemma RetireKeeps(s: State, t: Tid, n: Node, e: Env)
    requires EntryInv(s) && Allowed(s, Reclaim(t, n, e))
    ensures EntryInv(Do(s, Reclaim(t, n, e)))
  {
    var s' := Do(s, Reclaim(t, n, e));
    assert EntryLocalOk(s, t) && EntryOk(s, n);
    if e.memoryOk {
      DistinctSum([n], s.list(t));
      forall m: Node ensures EntryOk(s', m) { WhereIsIt(s, t, m); EntryMoves(s, s', t, m); }
      EntriesKeep(s, s', t);
    } else {
      EntriesSame(s, s', t);
    }
  }

  lemma MyScanKeeps(s: State, t: Tid, e: Env)
    requires EntryInv(s) && InScan(s.local(t).pc)
    ensures EntryInv(Tick(Run(s, t, Scanning(s, s.local(t), e))))
  {
    assert EntryLocalOk(s, t);
    ScanStays(s, s.local(t), e);
    ScanStart(s, s.local(t), e);
    EntriesSame(s, Tick(Run(s, t, Scanning(s, s.local(t), e))), t);
  }

  lemma FilterKeeps(s: State, t: Tid)
    requires EntryInv(s) && s.local(t).pc.Filter?
    ensures EntryInv(Tick(Using(s, t)))
  {
    var l, s' := s.local(t), Tick(Using(s, t));
    assert EntryLocalOk(s, t);
    if |l.kept| >= |s.list(t)| || s.list(t)[|l.kept|] in l.found { FilterPasses(s, t); } else { Reclaims(s, s', t); }
  }

  lemma FilterPasses(s: State, t: Tid)
    requires EntryInv(s) && s.local(t).pc.Filter?
      && (|s.local(t).kept| < |s.list(t)| ==> s.list(t)[|s.local(t).kept|] in s.local(t).found)
    ensures EntryInv(Tick(Using(s, t)))
  {
    assert EntryLocalOk(s, t);
    FilterStays(s, t);
    EntriesSame(s, Tick(Using(s, t)), t);
  }

  lemma FilterStays(s: State, t: Tid)
    requires s.local(t).pc.Filter?
      && (|s.local(t).kept| < |s.list(t)| ==> s.list(t)[|s.local(t).kept|] in s.local(t).found)
    ensures SameEntries(s, Using(s, t), t)
    ensures var l, k := s.local(t), |s.local(t).kept|;
      Using(s, t).local(t) == if k < |s.list(t)| then l.(kept := l.kept + [s.list(t)[k]]) else l.(pc := SweepTake)
  {
  }

  /** The entry of the own list behind those kept is reclaimed. */
  lemma Reclaims(s: State, s': State, t: Tid)
    requires EntryInv(s) && Others(s, s', t) && s.local(t).pc.Filter? && |s.local(t).kept| < |s.list(t)|
    requires var k, q := |s.local(t).kept|, s.list(t);
      && s'.list(t) == q[..k] + q[k + 1..] && s'.count(t) == s.count(t) - 1 && s'.place == Put(s.place, q[k], Done)
      && s'.local(t) == s.local(t) && s'.pending == s.pending && s'.retiredAt == s.retiredAt
    ensures EntryInv(s')
  {
    assert EntryLocalOk(s, t);
    var k := |s.local(t).kept|;
    Remove(s.list(t), k);
    WhereIsIt(s, t, s.list(t)[k]);
    forall m: Node ensures EntryOk(s', m) { WhereIsIt(s, t, m); EntryMoves(s, s', t, m); }
    EntriesKeep(s, s', t);
  }

  lemma TakeKeeps(s: State, t: Tid)
    requires EntryInv(s) && s.local(t).pc.SweepTake?
    ensures EntryInv(Tick(Using(s, t)))
  {
    var s' := Tick(Using(s, t));
    assert EntryLocalOk(s, t) && s'.local(t).todo + [] == s.pending;
    forall m: Node ensures EntryOk(s', m) { WhereIsIt(s, t, m); EntryMoves(s, s', t, m); }
    EntriesKeep(s, s', t);
  }

  /** Moving or dropping the first element of the chain. */
  lemma ChainStep(todo: seq<Node>, kept: seq<Node>)
    requires todo != [] && Distinct(todo + kept)
    ensures Distinct(todo[1..] + kept) && Distinct(todo[1..] + ([todo[0]] + kept))
    ensures forall n: Node :: n in todo[1..] + kept <==> n in todo + kept && n != todo[0]
    ensures forall n: Node :: n in todo[1..] + ([todo[0]] + kept) <==> n in todo + kept
  {
    assert todo == [todo[0]] + todo[1..];
    DistinctParts(todo, kept);
    DistinctParts([todo[0]], todo[1..]);
    DistinctSum([todo[0]], kept);
    DistinctSum(todo[1..], [todo[0]] + kept);
    DistinctSum(todo[1..], kept);
  }

  /** A found entry goes to the kept part of the chain. */
  lemma KeepsOne(s: State, s': State, t: Tid)
    requires EntryInv(s) && Others(s, s', t) && s.local(t).pc.SweepEach? && s.local(t).todo != []
    requires var l := s.local(t); s'.local(t) == l.(todo := l.todo[1..], kept := [l.todo[0]] + l.kept)
    requires s'.list == s.list && s'.count == s.count && s'.pending == s.pending && s'.place == s.place
      && s'.retiredAt == s.retiredAt
    ensures EntryInv(s')
  {
    var l := s.local(t);
    assert EntryLocalOk(s, t);
    ChainStep(l.todo, l.kept);
    forall m: Node ensures EntryOk(s', m) { WhereIsIt(s, t, m); EntryMoves(s, s', t, m); }
    EntriesKeep(s, s', t);
  }

  /** An entry not found is reclaimed. */
  lemma DropsOne(s: State, s': State, t: Tid)
    requires EntryInv(s) && Others(s, s', t) && s.local(t).pc.SweepEach? && s.local(t).todo != []
    requires var l := s.local(t); s'.local(t) == l.(todo := l.todo[1..]) && s'.place == Put(s.place, l.todo[0], Done)
    requires s'.list == s.list && s'.count == s.count && s'.pending == s.pending && s'.retiredAt == s.retiredAt
    ensures EntryInv(s')
  {
    var l := s.local(t);
    assert EntryLocalOk(s, t);
    ChainStep(l.todo, l.kept);
    WhereIsIt(s, t, l.todo[0]);
    forall m: Node ensures EntryOk(s', m) { WhereIsIt(s, t, m); EntryMoves(s, s', t, m); }
    EntriesKeep(s, s', t);
  }

  lemma EachKeeps(s: State, t: Tid)
    requires EntryInv(s) && s.local(t).pc.SweepEach? && s.local(t).todo != []
    ensures EntryInv(Tick(Using(s, t)))
  {
    var l, s' := s.local(t), Tick(Using(s, t));
    if l.todo[0] in l.found { KeepsOne(s, s', t); } else { DropsOne(s, s', t); }
  }

  lemma EachEnds(s: State, t: Tid)
    requires EntryInv(s) && s.local(t).pc.SweepEach? && s.local(t).todo == []
    ensures EntryInv(Tick(Using(s, t)))
  {
    assert EntryLocalOk(s, t) && s.local(t).todo + s.local(t).kept == s.local(t).kept;
    SweepStays(s, t);
    EntriesSame(s, Tick(Using(s, t)), t);
  }

  /** The steps of the sweep that move no entry. */
  lemma SweepStays(s: State, t: Tid)
    requires var l := s.local(t);
      (l.pc.SweepEach? && l.todo == []) || l.pc.SweepRead? || (l.pc.SweepPush? && First(s.pending) != l.h)
    ensures SameEntries(s, Using(s, t), t)
    ensures var l, l' := s.local(t), Using(s, t).local(t);
      && l'.todo == l.todo && l'.kept == l.kept && l'.start == l.start
      && (if l.pc.SweepEach? && l.kept == [] then l'.pc.Idle? else l'.pc.SweepRead? || l'.pc.SweepPush?)
  {
  }

  /** The chain q of t goes in front of the pending list. */
  lemma Parks(s: State, s': State, t: Tid, q: seq<Node>)
    requires EntryInv(s) && Others(s, s', t) && Distinct(q) && s'.pending == q + s.pending
      && s'.retiredAt == s.retiredAt && EntryLocalOk(s', t)
    requires forall n: Node {:trigger s'.place(n)} :: s'.place(n) == if n in q then Parked else s.place(n)
    requires forall n: Node :: n in q ==> s.place(n) == OnList(t) || s.place(n) == Swept(t)
    requires forall n: Node :: n in s'.list(t) <==> n in s.list(t) && n !in q
    requires forall n: Node :: n in Chain(s'.local(t)) <==> n in Chain(s.local(t)) && n !in q
    ensures EntryInv(s')
  {
    forall m: Node ensures !(m in q && m in s.pending) { WhereIsIt(s, t, m); }
    DistinctSum(q, s.pending);
    forall m: Node ensures EntryOk(s', m) { WhereIsIt(s, t, m); EntryMoves(s, s', t, m); }
    EntriesKeep(s, s', t);
  }

  lemma SweepPushKeeps(s: State, t: Tid)
    requires EntryInv(s) && s.local(t).pc.SweepPush? && First(s.pending) == s.local(t).h
    ensures EntryInv(Tick(Using(s, t)))
  {
    var l, s' := s.local(t), Tick(Using(s, t));
    assert EntryLocalOk(s, t) && l.todo + l.kept == l.kept;
    forall n: Node | n in l.kept ensures s.place(n) == Swept(t) && n !in s.list(t) { WhereIsIt(s, t, n); }
    Parks(s, s', t, l.kept);
  }

  lemma SweepWaits(s: State, t: Tid)
    requires EntryInv(s) && (s.local(t).pc.SweepRead? || (s.local(t).pc.SweepPush? && First(s.pending) != s.local(t).h))
    ensures EntryInv(Tick(Using(s, t)))
  {
    assert EntryLocalOk(s, t);
    SweepStays(s, t);
    EntriesSame(s, Tick(Using(s, t)), t);
  }

  lemma ParkPushKeeps(s: State, t: Tid)
    requires EntryInv(s) && s.local(t).pc.ParkPush? && First(s.pending) == s.local(t).h
    ensures EntryInv(Tick(Parking(s, t)))
  {
    var s' := Tick(Parking(s, t));
    assert EntryLocalOk(s, t);
    forall n: Node | n in s.list(t) ensures s.place(n) == OnList(t) { WhereIsIt(s, t, n); }
    Parks(s, s', t, s.list(t));
  }

  lemma ParkWaits(s: State, t: Tid)
    requires InPark(s.local(t).pc) && !(s.local(t).pc.ParkPush? && First(s.pending) == s.local(t).h)
    ensures var s' := Parking(s, t); SameEntries(s, s', t) && s'.list(t) == s.list(t) && s'.count(t) == s.count(t)
    ensures var s', l := Parking(s, t), s.local(t);
      (s'.local(t).pc.TurnOff? ==> s.list(t) == []) && (s'.local(t).pc.Gone? ==> l.pc.TurnOff?)
  {
  }

  lemma ParkKeeps(s: State, t: Tid)
    requires EntryInv(s) && InPark(s.local(t).pc) && !(s.local(t).pc.ParkPush? && First(s.pending) == s.local(t).h)
    ensures EntryInv(Tick(Parking(s, t)))
  {
    assert EntryLocalOk(s, t);
    ParkWaits(s, t);
    ParkStays(s, t);
    EntriesSame(s, Tick(Parking(s, t)), t);
  }

  lemma AcquireKeeps(s: State, t: Tid, e: Env)
    requires EntryInv(s) && InAcquire(s.local(t).pc)
    ensures EntryInv(Tick(Acquiring(s, t, e)))
  {
    AcquireStays(s, t, e);
    EntriesSame(s, Tick(Acquiring(s, t, e)), t);
  }

  lemma ReleaseKeeps(s: State, t: Tid)
    requires EntryInv(s) && InRelease(s.local(t).pc)
    ensures EntryInv(Tick(Releasing(s, t)))
  {
    ReleaseStays(s, t);
    EntriesSame(s, Tick(Releasing(s, t)), t);
  }

  lemma UseKeeps(s: State, t: Tid)
    requires EntryInv(s) && InUse(s.local(t).pc)
    ensures EntryInv(Tick(Using(s, t)))
  {
    var pc := s.local(t).pc;
    if pc.Filter? { FilterKeeps(s, t); }
    else if pc.SweepTake? { TakeKeeps(s, t); }
    else if pc.SweepEach? { if s.local(t).todo == [] { EachEnds(s, t); } else { EachKeeps(s, t); } }
    else if pc.SweepPush? && First(s.pending) == s.local(t).h { SweepPushKeeps(s, t); }
    else { SweepWaits(s, t); }
  }

  lemma MoveKeeps(s: State, t: Tid, e: Env)
    requires EntryInv(s)
    ensures EntryInv(Do(s, Move(t, e)))
  {
    var pc := s.local(t).pc;
    MoveIs(s, t, e);
    if InAcquire(pc) { AcquireKeeps(s, t, e); }
    else if InRelease(pc) { ReleaseKeeps(s, t); }
    else if InScan(pc) { MyScanKeeps(s, t, e); }
    else if InUse(pc) { UseKeeps(s, t); }
    else if InPark(pc) {
      if pc.ParkPush? && First(s.pending) == s.local(t).h {
        ParkPushKeeps(s, t);
      } else {
        ParkKeeps(s, t);
      }
    }
    else {
      assert EntryLocalOk(s, t);
      EntriesSame(s, Tick(s), t);
    }
  }

  lemma ActionKeepsEntries(s: State, a: Action)
    requires RecInv(s) && EntryInv(s) && Allowed(s, a)
    ensures EntryInv(Do(s, a))
  {
    match a
    case Move(t, e) => MoveKeeps(s, t, e);
    case Reclaim(t, n, e) => RetireKeeps(s, t, n, e);
    case Register => RegisterKeepsEntries(s);
    case SetThreshold(k) => assert EntryLocalOk(s, 0); EntriesSame(s, Do(s, a), 0);
    case _ => BeginKeepsEntries(s, a);
  }

  /** Beginning a call, and a validation, move no entry. */
  lemma BeginStays(s: State, a: Action)
    requires EntryInv(s) && Allowed(s, a) && (a.Acquire? || a.Validate? || a.Release? || a.Unregister?)
    ensures var s' := Act(s, a); SameEntries(s, s', a.t) && s'.threads == s.threads
    ensures var l, l' := s.local(a.t), Act(s, a).local(a.t);
      l.pc.Idle? && !Collects(l'.pc) && Chain(l') == [] && !l'.pc.Gone? && !l'.pc.TurnOff? && !l'.pc.Absent?
  {
  }

  lemma BeginKeepsEntries(s: State, a: Action)
    requires EntryInv(s) && Allowed(s, a) && (a.Acquire? || a.Validate? || a.Release? || a.Unregister?)
    ensures EntryInv(Do(s, a))
  {
    assert EntryLocalOk(s, a.t);
    BeginStays(s, a);
    EntriesSame(s, Do(s, a), a.t);
  }

  lemma RegisterKeepsEntries(s: State)
    requires RecInv(s) && EntryInv(s)
    ensures EntryInv(Do(s, Register))
  {
    assert EntryLocalOk(s, s.threads) && RecLocalOk(s, s.threads);
    EntriesSame(s, Do(s, Register), s.threads);
  }
}
