/** What a call of the sorted list met on its way: whether it got a hazard pointer, what its condition callback said,
    and the references it took. A call is the run s, actions: s is the state just after Begin, and the thread is not
    idle again before the end. */
module SortedListVerdicts {
  import opened Memory
  import opened SortedList
  import opened SortedListSafety
  import opened SortedListTheorems

  // ---------- a step is the step of one thread, in its call ----------

  /** Only t's own locals change, its operation does not, and it ends with its return. */
  ghost predicate Mine(s: State, s': State, t: Tid) {
    && (forall u: Tid :: u != t ==> s'.local(u) == s.local(u))
    && (s'.local(t).pc.Idle? || s'.local(t).op == s.local(t).op)
    && (s'.local(t).pc.Idle? ==> s.local(t).pc.Idle? || s.local(t).pc.Return?)
  }

  lemma WalkIsMine(s: State, t: Tid, e: Env)
    requires var pc := s.local(t).pc; Traversing(pc) || pc.ReadNext? || pc.Mark? || pc.Unmark? || pc.Skip?
    ensures Mine(s, Step(s, t, e), t)
  {
  }

  lemma CasIsMine(s: State, t: Tid, e: Env)
    requires var pc := s.local(t).pc; InserterAt(pc) || pc.Unlink?
    ensures Mine(s, Step(s, t, e), t)
  {
  }

  lemma EndIsMine(s: State, t: Tid, e: Env)
    requires var pc := s.local(t).pc;
      pc.DrawFirst? || pc.DrawMarked? || pc.TakeRef? || pc.Retire? || pc.Return? || pc.Idle?
    ensures Mine(s, Step(s, t, e), t)
  {
  }

  lemma SetIsMine(s: State, t: Tid, e: Env)
    requires OnlySetValue(s.local(t).pc)
    ensures Mine(s, Step(s, t, e), t)
  {
  }

  lemma StepIsMine(s: State, t: Tid, e: Env)
    ensures Mine(s, Step(s, t, e), t)
  {
    var pc := s.local(t).pc;
    if OnlySetValue(pc) { SetIsMine(s, t, e); }
    else if Traversing(pc) || pc.ReadNext? || pc.Mark? || pc.Unmark? || pc.Skip? { WalkIsMine(s, t, e); }
    else if InserterAt(pc) || pc.Unlink? { CasIsMine(s, t, e); }
    else { EndIsMine(s, t, e); }
  }

  // ---------- the run of a call ----------

  ghost predicate InCall(s: State, actions: seq<Action>, t: Tid) {
    forall k :: 0 <= k <= |actions| ==> !After(s, actions[..k]).local(t).pc.Idle?
  }

  lemma PrefixAllowed(s: State, actions: seq<Action>, t: Tid, k: nat)
    requires k <= |actions| && AllAllowed(s, actions) && InCall(s, actions, t)
    ensures AllAllowed(s, actions[..k]) && InCall(s, actions[..k], t)
  {
    assert forall j :: 0 <= j <= k ==> actions[..k][..j] == actions[..j];
  }

  lemma WithoutLast(s: State, actions: seq<Action>, t: Tid)
    requires actions != [] && AllAllowed(s, actions) && InCall(s, actions, t)
    ensures var q := actions[..|actions| - 1];
      && AllAllowed(s, q) && InCall(s, q, t) && Allowed(After(s, q), actions[|actions| - 1])
      && !After(s, q).local(t).pc.Idle? && !After(s, actions).local(t).pc.Idle?
  {
    PrefixAllowed(s, actions, t, |actions| - 1);
    assert actions == actions[..|actions|];
  }

  // ---------- what the checks of a call met ----------

  /** What the last of a call's checks that settles anything met: no hazard pointer, or the item of the key, for which
      the condition callback gave its verdict. */
  datatype Met = NothingYet | NoHazard | Condition(item: Node, verdict: Verdict)

  ghost predicate FindsNoHazard(s: State, a: Action, t: Tid) {
    a.Move? && a.t == t && s.local(t).pc.Check? && !a.env.hazardOk
  }

  /** t sees the item of the key in place, and its set_value asks the callback. */
  ghost predicate Asks(s: State, a: Action, t: Tid) {
    && a.Move? && a.t == t && a.env.hazardOk
    && var l := s.local(t);
    && l.pc.Check? && l.op.SetValue? && LinkAt(s, l.at) == Link(To(l.cur), false) && s.key(l.cur) == s.key(l.op.item)
  }

  ghost function MetIn(s: State, actions: seq<Action>, t: Tid): Met {
    if actions == [] then NothingYet
    else
      var n := |actions| - 1;
      NowMet(After(s, actions[..n]), actions[n], t, MetIn(s, actions[..n], t))
  }

  ghost function NowMet(s: State, a: Action, t: Tid, before: Met): Met {
    if FindsNoHazard(s, a, t) then NoHazard else if Asks(s, a, t) then Condition(s.local(t).cur, a.env.verdict)
    else before
  }

  predicate Refused(m: Met) { m.Condition? && m.verdict.CondNotMet? }
  predicate Failed(m: Met) { m.NoHazard? || (m.Condition? && m.verdict.CondError?) }

  /** Where a call stands with what it has met. */
  ghost predicate Stands(l: Local, m: Met) {
    && (l.op.SetValue? && (HasCur(l.pc) || TakesOut(l)) ==> m == Condition(l.cur, CondOk))
    && (l.op.SetValue? && l.pc.Return? && l.res.DoneOld? && l.res.was.To? ==> m == Condition(l.res.was.node, CondOk))
    && (Refused(m) <==> l.pc.Return? && l.res.NotMet?)
    && (Failed(m) <==> l.pc.Return? && l.res.Error?)
  }

  lemma CheckStands(s: State, t: Tid, e: Env, m: Met)
    requires LocalOk(s, t) && s.local(t).pc.Check? && Stands(s.local(t), m)
    ensures Stands(Step(s, t, e).local(t), NowMet(s, Move(t, e), t, m))
  {
  }

  lemma ReadStands(s: State, t: Tid, e: Env, m: Met)
    requires LocalOk(s, t) && Stands(s.local(t), m)
    requires var pc := s.local(t).pc; pc.Read? || pc.DrawFirst? || pc.Skip?
    ensures Stands(Step(s, t, e).local(t), NowMet(s, Move(t, e), t, m))
  {
  }

  lemma LinkStands(s: State, t: Tid, e: Env, m: Met)
    requires LocalOk(s, t) && Stands(s.local(t), m) && InserterAt(s.local(t).pc)
    ensures Stands(Step(s, t, e).local(t), NowMet(s, Move(t, e), t, m))
  {
    StepIs(s, t, e);
    assert NowMet(s, Move(t, e), t, m) == m;
    var l, l' := s.local(t), Step(s, t, e).local(t);
    assert InserterAt(l'.pc) || l'.pc.Read? || (l'.pc.Return? && (l'.res.Done? || l'.res == DoneOld(Null)));
  }

  lemma LockStands(s: State, t: Tid, e: Env, m: Met)
    requires ListInv(s) && Stands(s.local(t), m)
    requires var pc := s.local(t).pc; pc.ReadNext? || pc.Mark? || pc.Unmark? || pc.DrawMarked? || pc.Unlink?
    ensures Stands(Step(s, t, e).local(t), NowMet(s, Move(t, e), t, m))
  {
    assert LocalOk(s, t);
    if HasMark(s.local(t).pc) { UnmarkSucceeds(s, t); }
  }

  lemma SetStands(s: State, t: Tid, e: Env, m: Met)
    requires ListInv(s) && OnlySetValue(s.local(t).pc) && Stands(s.local(t), m)
    ensures Stands(Step(s, t, e).local(t), NowMet(s, Move(t, e), t, m))
  {
    assert LocalOk(s, t);
    UnmarkSucceeds(s, t);
    StepIs(s, t, e);
  }

  lemma EndStands(s: State, t: Tid, e: Env, m: Met)
    requires LocalOk(s, t) && Stands(s.local(t), m) && (s.local(t).pc.TakeRef? || s.local(t).pc.Retire?)
    ensures Stands(Step(s, t, e).local(t), NowMet(s, Move(t, e), t, m))
  {
  }

  lemma MyStepStands(s: State, t: Tid, e: Env, m: Met)
    requires ListInv(s) && Stands(s.local(t), m) && !s.local(t).pc.Idle? && !Step(s, t, e).local(t).pc.Idle?
    ensures Stands(Step(s, t, e).local(t), NowMet(s, Move(t, e), t, m))
  {
    assert LocalOk(s, t);
    var pc := s.local(t).pc;
    if pc.Check? { CheckStands(s, t, e, m); }
    else if OnlySetValue(pc) { SetStands(s, t, e, m); }
    else if HasCur(pc) { LockStands(s, t, e, m); }
    else if pc.TakeRef? || pc.Retire? { EndStands(s, t, e, m); }
    else if InserterAt(pc) { LinkStands(s, t, e, m); }
    else if !pc.Return? { ReadStands(s, t, e, m); }
  }

  /** Through a whole call: it replaces, or keeps, the item of its key only after its callback said that the condition
      is met, it answers NotMet exactly when the callback said that it is not, and it ends in an error exactly when it
      found no hazard pointer or the callback failed. */
  lemma {:induction false} CallStands(s: State, actions: seq<Action>, t: Tid)
    requires Inv(s) && AllAllowed(s, actions) && InCall(s, actions, t)
      && (s.local(t).pc.DrawFirst? || s.local(t).pc.Read?)
    ensures Stands(After(s, actions).local(t), MetIn(s, actions, t))
  {
    if actions != [] {
      var n := |actions| - 1;
      var s1, a := After(s, actions[..n]), actions[n];
      WithoutLast(s, actions, t);
      CallStands(s, actions[..n], t);
      RunKeepsInv(s, actions[..n]);
      if a.Move? && a.t == t { MyStepStands(s1, t, a.env, MetIn(s, actions[..n], t)); }
      else { TheirsStay(s1, a, t); }
    }
  }

  lemma TheirsStay(s: State, a: Action, t: Tid)
    requires Allowed(s, a) && !(a.Move? && a.t == t) && !s.local(t).pc.Idle?
    ensures Do(s, a).local(t) == s.local(t)
  {
    if a.Move? { StepIsMine(s, a.t, a.env); }
  }

  // ---------- references taken ----------

  /** How much the steps of t itself raised the count of n in the run. */
  function RefsTaken(s: State, actions: seq<Action>, t: Tid, n: Node): int {
    if actions == [] then 0
    else
      var k := |actions| - 1;
      var s1, a := After(s, actions[..k]), actions[k];
      RefsTaken(s, actions[..k], t, n) + if a.Move? && a.t == t then Do(s1, a).refs(n) - s1.refs(n) else 0
  }

  /** The answer r of op hands node n to the caller. */
  predicate Gives(op: Op, r: Result, n: Node) {
    match op
    case Find(_) => r == Found(n)
    case Remove(_) => r == DoneOld(To(n))
    case SetValue(i, _) => r == DoneOld(To(n)) && n != i
    case _ => false
  }

  /** The reference of what a call gives is taken before it returns. */
  predicate HasTaken(l: Local, n: Node) { (l.pc.Return? || l.pc.Retire?) && Gives(l.op, l.res, n) }

  lemma StepTakes(s: State, t: Tid, e: Env, n: Node)
    requires LocalOk(s, t) && (s.local(t).pc.TakeRef? || s.local(t).pc.Retire?)
    ensures var s' := Step(s, t, e);
      s'.refs(n) - s.refs(n) == (if HasTaken(s'.local(t), n) then 1 else 0) - (if HasTaken(s.local(t), n) then 1 else 0)
  {
  }

  lemma LockTakesNone(s: State, t: Tid, e: Env, n: Node)
    requires ListInv(s) && var pc := s.local(t).pc;
      pc.ReadNext? || pc.Mark? || pc.Unmark? || pc.DrawMarked? || pc.Unlink?
    ensures !HasTaken(s.local(t), n) && !HasTaken(Step(s, t, e).local(t), n)
  {
    assert LocalOk(s, t);
    if s.local(t).pc.Unmark? { UnmarkSucceeds(s, t); }
  }

  lemma SetTakesNone(s: State, t: Tid, e: Env, n: Node)
    requires ListInv(s) && OnlySetValue(s.local(t).pc)
    ensures !HasTaken(s.local(t), n) && !HasTaken(Step(s, t, e).local(t), n)
  {
    assert LocalOk(s, t);
    UnmarkSucceeds(s, t);
    StepIs(s, t, e);
  }

  lemma OtherTakesNone(s: State, t: Tid, e: Env, n: Node)
    requires LocalOk(s, t) && var pc := s.local(t).pc; Traversing(pc) || InserterAt(pc) || pc.DrawFirst? || pc.Skip?
    ensures !HasTaken(s.local(t), n) && !HasTaken(Step(s, t, e).local(t), n)
  {
    StepIs(s, t, e);
  }

  lemma {:induction false} CallTakes(s: State, actions: seq<Action>, t: Tid, n: Node)
    requires Inv(s) && AllAllowed(s, actions) && InCall(s, actions, t)
      && (s.local(t).pc.DrawFirst? || s.local(t).pc.Read?)
    ensures RefsTaken(s, actions, t, n) == if HasTaken(After(s, actions).local(t), n) then 1 else 0
  {
    if actions != [] {
      var k := |actions| - 1;
      var s1, a := After(s, actions[..k]), actions[k];
      WithoutLast(s, actions, t);
      CallTakes(s, actions[..k], t, n);
      RunKeepsInv(s, actions[..k]);
      if a.Move? && a.t == t { MyStepTakes(s1, t, a.env, n); } else { TheirsStay(s1, a, t); }
    }
  }

  lemma MyStepTakes(s: State, t: Tid, e: Env, n: Node)
    requires ListInv(s) && !s.local(t).pc.Idle? && !Step(s, t, e).local(t).pc.Idle?
    ensures var s' := Step(s, t, e);
      s'.refs(n) - s.refs(n) == (if HasTaken(s'.local(t), n) then 1 else 0) - (if HasTaken(s.local(t), n) then 1 else 0)
  {
    assert LocalOk(s, t);
    var pc := s.local(t).pc;
    if pc.TakeRef? || pc.Retire? { StepTakes(s, t, e, n); }
    else {
      OtherStepsCount(s, t, e, n);
      if OnlySetValue(pc) { SetTakesNone(s, t, e, n); }
      else if HasCur(pc) { LockTakesNone(s, t, e, n); }
      else if !pc.Return? { OtherTakesNone(s, t, e, n); }
    }
  }
}
