/** Each call of the sorted list, however the steps of others come between its own, has one moment between call and
    return at which it acts on the abstract map as its answer says. A call is the run s, actions: s is the state just
    after Begin, and the thread is not idle again before the end. */
module SortedListCalls {
  import opened Memory
  import opened SortedList
  import opened SortedListSafety
  import opened SortedListTheorems
  import opened SortedListVerdicts

  /** n is in the list and is what the operation looks for. */
  ghost predicate Sought(s: State, op: Op, n: Node) { s.status(n).Linked? && Compare(s, op, n).Match? }

  ghost predicate Absent(s: State, op: Op) { forall n: Node :: !Sought(s, op, n) }

  /** The list, as it is in s, justifies the answer r. */
  ghost predicate Answers(s: State, op: Op, r: Result) {
    match r
    case NotFound => Absent(s, op)
    case Exists | NotMet => !Absent(s, op)
    case Found(n) => Sought(s, op, n)
    case DoneOld(p) => p.To? && Sought(s, op, p.node)
    case _ => true
  }

  ghost predicate Once(s: State, actions: seq<Action>, op: Op, r: Result) {
    exists k :: 0 <= k <= |actions| && Answers(After(s, actions[..k]), op, r)
  }

  lemma OnceLonger(s: State, actions: seq<Action>, op: Op, r: Result)
    requires actions != []
    ensures Once(s, actions[..|actions| - 1], op, r) ==> Once(s, actions, op, r)
    ensures Answers(After(s, actions), op, r) ==> Once(s, actions, op, r)
    ensures Answers(After(s, actions[..|actions| - 1]), op, r) ==> Once(s, actions, op, r)
  {
    var n := |actions| - 1;
    assert actions[..|actions|] == actions;
    if k :| 0 <= k <= n && Answers(After(s, actions[..n][..k]), op, r) {
      assert actions[..n][..k] == actions[..k];
    }
  }

  // ---------- answers that change nothing ----------

  /** The traversal stands where the target can no longer be ahead of it by order alone: at a node with a key not
      below the target's, or on the NULL of a node that is already out. */
  ghost predicate Passed(s: State, l: Local) {
    l.at.NextOf?
      && (s.key(l.at.node) >= GoalKey(s, l.op) || (!s.status(l.at.node).Linked? && s.next(l.at.node).ptr.Null?))
  }

  /** The call is about to return, or returns, an answer that changes nothing. */
  predicate OnlyLooked(l: Local) {
    && (l.pc.Return? || (l.pc.TakeRef? && l.op.Find?))
    && (l.res.NotFound? || l.res.Exists? || l.res.NotMet? || l.res.Found?
       || (l.op.SetValue? && l.res == DoneOld(To(l.op.item))))
  }

  /** What lies between a linked place and the node it points to is absent. */
  lemma GapIsAbsent(s: State, at: Loc, op: Op)
    requires ListInv(s) && Live(s, at) && (at.NextOf? ==> s.key(at.node) < GoalKey(s, op))
    requires LinkAt(s, at).ptr.To? ==> var c := LinkAt(s, at).ptr.node;
      s.status(c).Linked? && s.key(c) >= GoalKey(s, op) && !Compare(s, op, c).Match?
    ensures Absent(s, op)
  {
    forall n: Node ensures !Sought(s, op, n) {
      assert NoneSkipped(s, at, n) && (LinkAt(s, at).ptr.To? ==> KeysDiffer(s, n, LinkAt(s, at).ptr.node));
    }
  }

  lemma AdvanceIsJustified(s: State, t: Tid)
    requires ListInv(s) && s.local(t).pc.Check? && !Passed(s, s.local(t))
    requires var l := s.local(t);
      LinkAt(s, l.at) == Link(To(l.cur), false) && !Compare(s, l.op, l.cur).Match? && s.key(l.cur) >= GoalKey(s, l.op)
    ensures Absent(s, s.local(t).op)
  {
    assert LocalOk(s, t);
    UnmarkedIsLive(s, t);
    GapIsAbsent(s, s.local(t).at, s.local(t).op);
  }

  lemma TraversePassed(s: State, t: Tid, e: Env)
    requires ListInv(s) && Traversing(s.local(t).pc) && var l := Traverse(s, s.local(t), e);
      Traversing(l.pc) && Passed(s, l)
    ensures Passed(s, s.local(t)) || Absent(s, s.local(t).op)
  {
    var l := s.local(t);
    if l.pc.Check? && LinkAt(s, l.at) == Link(To(l.cur), false) && !Passed(s, l) {
      UnmarkedIsLive(s, t);
      AdvanceIsJustified(s, t);
    }
  }

  /** A call comes back to the traversal at head. */
  lemma LocksStartAtHead(s: State, t: Tid, e: Env)
    requires ListInv(s) && var pc := s.local(t).pc; pc.ReadNext? || pc.Mark? || pc.Unmark? || pc.Skip? || InserterAt(pc)
    ensures var l := Step(s, t, e).local(t); Traversing(l.pc) ==> l.at.Head?
  {
    assert LocalOk(s, t);
  }

  lemma OthersStartAtHead(s: State, t: Tid, e: Env)
    requires ListInv(s) && var pc := s.local(t).pc;
      pc.DrawFirst? || pc.DrawMarked? || pc.Unlink? || pc.TakeRef? || pc.Retire? || pc.Return? || pc.Idle?
    ensures var l := Step(s, t, e).local(t); Traversing(l.pc) ==> l.at.Head?
  {
    assert LocalOk(s, t);
  }

  lemma MyPassedStep(s: State, t: Tid, e: Env)
    requires ListInv(s) && var l := Step(s, t, e).local(t); Traversing(l.pc) && Passed(Step(s, t, e), l)
    ensures (Traversing(s.local(t).pc) && Passed(s, s.local(t))) || Absent(s, s.local(t).op)
  {
    if Traversing(s.local(t).pc) { TraversePassed(s, t, e); }
    else if OnlySetValue(s.local(t).pc) { SetNeverTraverses(s, t, e); }
    else if var pc := s.local(t).pc; pc.ReadNext? || pc.Mark? || pc.Unmark? || pc.Skip? || InserterAt(pc) {
      LocksStartAtHead(s, t, e);
    }
    else { OthersStartAtHead(s, t, e); }
  }

  lemma SetNeverTraverses(s: State, t: Tid, e: Env)
    requires OnlySetValue(s.local(t).pc)
    ensures !Traversing(Step(s, t, e).local(t).pc)
  {
  }

  lemma TheirPassedStep(s: State, a: Action, t: Tid)
    requires ListInv(s) && Allowed(s, a) && Do(s, a).local(t) == s.local(t)
    requires var l := s.local(t); Traversing(l.pc) && Passed(Do(s, a), l) && !Passed(s, l)
    ensures Absent(s, s.local(t).op)
  {
    var l := s.local(t);
    assert LocalOk(s, t) && NodeOk(s, l.at.node);
    ActionEffect(s, a, l.at.node);
    GoalKeyStays(s, a, t);
    GapIsAbsent(s, l.at, l.op);
  }

  lemma SameKeys(s: State, s': State, op: Op)
    requires forall n: Node {:trigger s'.key(n)} :: n < s.created ==> s'.key(n) == s.key(n)
    requires (Inserts(op) ==> op.item < s.created) && (ByItem(op) ==> op.goal.node < s.created)
    ensures GoalKey(s', op) == GoalKey(s, op)
    ensures forall n: Node :: n < s.created ==> Compare(s', op, n) == Compare(s, op, n)
  {
  }

  /** The target of a call keeps its key. */
  lemma GoalKeyStays(s: State, a: Action, t: Tid)
    requires ListInv(s) && Allowed(s, a)
    ensures GoalKey(Do(s, a), s.local(t).op) == GoalKey(s, s.local(t).op)
    ensures forall n: Node :: n < s.created ==> Compare(Do(s, a), s.local(t).op, n) == Compare(s, s.local(t).op, n)
  {
    assert LocalOk(s, t);
    var s' := Do(s, a);
    forall n: Node | n < s.created ensures s'.key(n) == s.key(n) { ActionEffect(s, a, n); }
    SameKeys(s, s', s.local(t).op);
  }

  lemma EndIsAbsent(s: State, t: Tid)
    requires ListInv(s) && s.local(t).pc.Read? && LinkAt(s, s.local(t).at).ptr.Null? && !Passed(s, s.local(t))
    ensures Absent(s, s.local(t).op)
  {
    assert LocalOk(s, t);
    GapIsAbsent(s, s.local(t).at, s.local(t).op);
  }

  lemma TraverseAnswer(s: State, t: Tid, e: Env)
    requires ListInv(s) && Traversing(s.local(t).pc) && OnlyLooked(Traverse(s, s.local(t), e))
    ensures var l, r := s.local(t), Traverse(s, s.local(t), e).res; Answers(s, l.op, r) || (r.NotFound? && Passed(s, l))
  {
    assert LocalOk(s, t);
    var l := s.local(t);
    if l.pc.Read? {
      if !Passed(s, l) { EndIsAbsent(s, t); }
    } else {
      UnmarkedIsLive(s, t);
      if Compare(s, l.op, l.cur).Match? {
        assert Sought(s, l.op, l.cur);
      } else {
        GapIsAbsent(s, l.at, l.op);
      }
    }
  }

  lemma SameItemAnswer(s: State, t: Tid, e: Env)
    requires ListInv(s) && s.local(t).pc.UnmarkSame?
    ensures Answers(s, s.local(t).op, Step(s, t, e).local(t).res)
  {
    assert LocalOk(s, t);
    UnmarkSucceeds(s, t);
  }

  lemma LockAnswers(s: State, t: Tid, e: Env)
    requires ListInv(s) && var pc := s.local(t).pc;
      pc.ReadNext? || pc.Mark? || pc.Unmark? || pc.DrawMarked? || pc.Unlink?
    ensures !OnlyLooked(Step(s, t, e).local(t))
  {
    assert LocalOk(s, t);
    if s.local(t).pc.Unmark? { UnmarkSucceeds(s, t); }
  }

  lemma SetAnswers(s: State, t: Tid, e: Env)
    requires ListInv(s) && OnlySetValue(s.local(t).pc) && !s.local(t).pc.UnmarkSame?
    ensures !OnlyLooked(Step(s, t, e).local(t))
  {
    assert LocalOk(s, t);
    StepIs(s, t, e);
  }

  lemma OtherAnswers(s: State, t: Tid, e: Env)
    requires ListInv(s) && var pc := s.local(t).pc; !HasCur(pc) && !Traversing(pc)
    ensures OnlyLooked(Step(s, t, e).local(t)) ==>
      OnlyLooked(s.local(t)) && Step(s, t, e).local(t).res == s.local(t).res
  {
    assert LocalOk(s, t);
  }

  /** The step that settles an answer that changes nothing is taken where the list justifies the answer, or after a
      moment where it did. */
  lemma MyAnswerStep(s: State, t: Tid, e: Env)
    requires ListInv(s) && OnlyLooked(Step(s, t, e).local(t))
    ensures var l, r := s.local(t), Step(s, t, e).local(t).res;
      || (OnlyLooked(l) && l.res == r)
      || Answers(s, l.op, r)
      || (r.NotFound? && Traversing(l.pc) && Passed(s, l))
  {
    var pc := s.local(t).pc;
    if Traversing(pc) { TraverseAnswer(s, t, e); }
    else if pc.UnmarkSame? { SameItemAnswer(s, t, e); }
    else if OnlySetValue(pc) { SetAnswers(s, t, e); }
    else if HasCur(pc) { LockAnswers(s, t, e); }
    else { OtherAnswers(s, t, e); }
  }

  // ---------- changes made by a call ----------

  /** What t did to the list in a run. */
  function Changes(s: State, actions: seq<Action>, t: Tid): seq<Effect> {
    if actions == [] then []
    else Changes(s, actions[..|actions| - 1], t) + Change(After(s, actions[..|actions| - 1]), actions[|actions| - 1], t)
  }

  function Change(s: State, a: Action, t: Tid): seq<Effect> {
    if a.Move? && a.t == t && EffectOf(s, a) != Silent then [EffectOf(s, a)] else []
  }

  /** The one change that goes with an answer. */
  ghost function ChangeFor(l: Local): seq<Effect> {
    if !(l.pc.Return? || TakesOut(l)) then []
    else match l.op
      case Insert(i) => if l.res.Done? then [Adds(i)] else []
      case Delete(_) => if l.res.Done? then [Drops(l.cur)] else []
      case Remove(_) => if l.res.DoneOld? then [Drops(l.cur)] else []
      case SetValue(i, _) =>
        if l.res == DoneOld(Null) then [Adds(i)]
        else if l.res.DoneOld? && l.res.was != To(i) then [Swaps(l.res.was.node, i)]
        else []
      case _ => []
  }

  /** The answers an operation can give. */
  ghost predicate AnswerFits(l: Local) {
    || l.res.Error?
    || match l.op
       case Insert(_) => l.res.Done? || l.res.Exists?
       case Delete(_) => l.res.Done? || l.res.NotFound?
       case Remove(_) => l.res == DoneOld(To(l.cur)) || l.res.NotFound?
       case SetValue(_, only) =>
         (l.res.DoneOld? && (l.res.was.Null? ==> !only)) || l.res.NotMet? || (l.res.NotFound? && only)
       case Find(_) => l.res.Found? || l.res.NotFound?
       case Nothing => false
  }

  /** How the locals of t go on in one step. */
  ghost predicate GoesRight(s: State, t: Tid, e: Env) {
    var l, l' := s.local(t), Step(s, t, e).local(t);
    && ChangeFor(l') == ChangeFor(l) + Change(s, Move(t, e), t)
    && (l'.pc.Return? ==> AnswerFits(l'))
  }

  lemma TraverseGoesRight(s: State, t: Tid, e: Env)
    requires ListInv(s) && Traversing(s.local(t).pc)
    ensures GoesRight(s, t, e)
  {
    assert LocalOk(s, t);
  }

  lemma LockGoesRight(s: State, t: Tid, e: Env)
    requires ListInv(s) && var pc := s.local(t).pc; pc.ReadNext? || pc.Mark? || pc.DrawMarked? || pc.Unmark?
    ensures GoesRight(s, t, e)
  {
    assert LocalOk(s, t);
    if s.local(t).pc.Unmark? { UnmarkSucceeds(s, t); }
  }

  lemma SetGoesRight(s: State, t: Tid, e: Env)
    requires ListInv(s) && OnlySetValue(s.local(t).pc) && !s.local(t).pc.Replace?
    ensures GoesRight(s, t, e)
  {
    assert LocalOk(s, t);
    UnmarkSucceeds(s, t);
    StepIs(s, t, e);
  }

  lemma UnlinkGoesRight(s: State, t: Tid, e: Env)
    requires ListInv(s) && s.local(t).pc.Unlink?
    ensures GoesRight(s, t, e)
  {
    assert LocalOk(s, t);
  }

  lemma ReplaceLocal(s: State, t: Tid, e: Env)
    requires s.local(t).pc.Replace? && s.local(t).op.SetValue?
    ensures var l := s.local(t);
      Step(s, t, e).local(t) == if Change(s, Move(t, e), t) == [] then l.(pc := Unmark)
        else l.(pc := TakeRef, res := DoneOld(To(l.cur)), holds := false)
    ensures var l := s.local(t); Change(s, Move(t, e), t) in {[], [Swaps(l.cur, l.op.item)]}
  {
  }

  lemma ReplaceGoesRight(s: State, t: Tid, e: Env)
    requires ListInv(s) && s.local(t).pc.Replace?
    ensures GoesRight(s, t, e)
  {
    assert LocalOk(s, t);
    ReplaceLocal(s, t, e);
  }

  lemma OtherGoesRight(s: State, t: Tid, e: Env)
    requires ListInv(s) && var pc := s.local(t).pc; pc.DrawFirst? || pc.Skip? || pc.Retire? || pc.TakeRef?
    ensures GoesRight(s, t, e)
  {
    assert LocalOk(s, t);
  }

  lemma InsertGoesRight(s: State, t: Tid, e: Env)
    requires ListInv(s) && InserterAt(s.local(t).pc)
    ensures GoesRight(s, t, e)
  {
    assert LocalOk(s, t);
  }

  lemma MyStepGoesRight(s: State, t: Tid, e: Env)
    requires ListInv(s) && !s.local(t).pc.Idle? && !Step(s, t, e).local(t).pc.Idle?
    ensures GoesRight(s, t, e)
  {
    var pc := s.local(t).pc;
    if Traversing(pc) { TraverseGoesRight(s, t, e); }
    else if pc.Unlink? { UnlinkGoesRight(s, t, e); }
    else if pc.Replace? { ReplaceGoesRight(s, t, e); }
    else if OnlySetValue(pc) { SetGoesRight(s, t, e); }
    else if HasCur(pc) { LockGoesRight(s, t, e); }
    else if InserterAt(pc) { InsertGoesRight(s, t, e); }
    else { OtherGoesRight(s, t, e); }
  }

  // ---------- a whole call ----------

  /** What holds of the call of t all along. */
  ghost predicate CallOk(s: State, actions: seq<Action>, t: Tid, op: Op) {
    var s', l := After(s, actions), After(s, actions).local(t);
    && Inv(s') && l.op == op
    && (l.pc.Return? ==> AnswerFits(l))
    && Changes(s, actions, t) == ChangeFor(l)
    && (Traversing(l.pc) && Passed(s', l) ==> Once(s, actions, op, NotFound))
    && (OnlyLooked(l) ==> Once(s, actions, op, l.res))
  }

  lemma MyActionInCall(s: State, actions: seq<Action>, t: Tid, op: Op)
    requires actions != [] && CallOk(s, actions[..|actions| - 1], t, op)
    requires var s1, a := After(s, actions[..|actions| - 1]), actions[|actions| - 1];
      a.Move? && a.t == t && Allowed(s1, a) && !s1.local(t).pc.Idle? && !Do(s1, a).local(t).pc.Idle?
    ensures CallOk(s, actions, t, op)
  {
    var n := |actions| - 1;
    var s1, e := After(s, actions[..n]), actions[n].env;
    var s' := Step(s1, t, e);
    ActionKeeps(s1, actions[n]);
    StepIsMine(s1, t, e);
    MyStepGoesRight(s1, t, e);
    if Traversing(s'.local(t).pc) && Passed(s', s'.local(t)) {
      OnceLonger(s, actions, op, NotFound);
      MyPassedStep(s1, t, e);
    }
    if OnlyLooked(s'.local(t)) {
      OnceLonger(s, actions, op, s'.local(t).res);
      MyAnswerStep(s1, t, e);
    }
  }

  /** An action of others leaves the locals of t, and its hindsight. */
  lemma TheirsLeave(s: State, a: Action, t: Tid)
    requires Inv(s) && Allowed(s, a) && !(a.Move? && a.t == t) && !s.local(t).pc.Idle?
    ensures Inv(Do(s, a)) && Do(s, a).local(t) == s.local(t)
    ensures Traversing(s.local(t).pc) && Passed(Do(s, a), s.local(t)) && !Passed(s, s.local(t)) ==>
      Absent(s, s.local(t).op)
  {
    ActionKeeps(s, a);
    if a.Move? { StepIsMine(s, a.t, a.env); }
    assert Do(s, a).local(t) == s.local(t);
    if Traversing(s.local(t).pc) && Passed(Do(s, a), s.local(t)) && !Passed(s, s.local(t)) { TheirPassedStep(s, a, t); }
  }

  lemma TheirActionInCall(s: State, actions: seq<Action>, t: Tid, op: Op)
    requires actions != [] && CallOk(s, actions[..|actions| - 1], t, op)
    requires var s1, a := After(s, actions[..|actions| - 1]), actions[|actions| - 1];
      !(a.Move? && a.t == t) && Allowed(s1, a) && !s1.local(t).pc.Idle?
    ensures CallOk(s, actions, t, op)
  {
    var n := |actions| - 1;
    var s1, a := After(s, actions[..n]), actions[n];
    TheirsLeave(s1, a, t);
    OnceLonger(s, actions, op, NotFound);
    OnceLonger(s, actions, op, s1.local(t).res);
  }

  lemma {:induction false} WholeCall(s: State, actions: seq<Action>, t: Tid, op: Op)
    requires Inv(s) && AllAllowed(s, actions) && InCall(s, actions, t)
    requires var l := s.local(t); l.op == op && l.at.Head? && (l.pc.DrawFirst? || l.pc.Read?)
    ensures CallOk(s, actions, t, op)
  {
    if actions != [] {
      var n := |actions| - 1;
      ShorterAllowed(s, actions);
      assert forall k :: 0 <= k <= n ==> actions[..n][..k] == actions[..k];
      assert InCall(s, actions[..n], t);
      WholeCall(s, actions[..n], t, op);
      assert actions[..|actions|] == actions;
      if actions[n].Move? && actions[n].t == t {
        MyActionInCall(s, actions, t, op);
      } else {
        TheirActionInCall(s, actions, t, op);
      }
    }
  }

  // ---------- each call acts like one operation on a map ----------

  ghost predicate Becomes(s: State, s': State, k: Key, p: Ptr) {
    forall j: Key :: Lookup(s', j) == if j == k then p else Lookup(s, j)
  }

  ghost predicate Unchanged(s: State, s': State) { forall j: Key :: Lookup(s', j) == Lookup(s, j) }

  /** The operations on a map from keys to items: op, done on the map of s by a call that met m, answers r and leaves
      the map of s'. */
  ghost predicate Spec(s: State, s': State, op: Op, m: Met, r: Result) {
    match op
    case Insert(i) =>
      if Lookup(s, s.key(i)).Null? then r.Done? && Becomes(s, s', s.key(i), To(i)) else r.Exists? && Unchanged(s, s')
    case Delete(KeyIs(k)) =>
      if Lookup(s, k).To? then r.Done? && Becomes(s, s', k, Null) else r.NotFound? && Unchanged(s, s')
    case Delete(ItemIs(n)) =>
      if Lookup(s, s.key(n)) == To(n) then r.Done? && Becomes(s, s', s.key(n), Null)
      else r.NotFound? && Unchanged(s, s')
    case Remove(KeyIs(k)) =>
      if Lookup(s, k).To? then r == DoneOld(Lookup(s, k)) && Becomes(s, s', k, Null)
      else r.NotFound? && Unchanged(s, s')
    case SetValue(i, onlyIfExists) =>
      if Lookup(s, s.key(i)).Null? then
        if onlyIfExists then r.NotFound? && Unchanged(s, s')
        else r == DoneOld(Null) && Becomes(s, s', s.key(i), To(i))
      else if Refused(m) then r.NotMet? && Unchanged(s, s')
      else m == Condition(Lookup(s, s.key(i)).node, CondOk) && r == DoneOld(Lookup(s, s.key(i)))
             && Becomes(s, s', s.key(i), To(i))
    case Find(KeyIs(k)) => r == (if Lookup(s, k).To? then Found(Lookup(s, k).node) else NotFound) && Unchanged(s, s')
    case _ => false
  }

  /** In the k-th state of a call, or with the call's own step from there, the operation acts on the map. */
  ghost predicate ActsAt(s: State, actions: seq<Action>, t: Tid, op: Op, r: Result, k: int) {
    && 0 <= k <= |actions|
    && var m := MetIn(s, actions, t);
      (|| Spec(After(s, actions[..k]), After(s, actions[..k]), op, m, r)
       || (k < |actions| && actions[k].Move? && actions[k].t == t
          && Spec(After(s, actions[..k]), After(s, actions[..k + 1]), op, m, r)))
  }

  lemma SoughtIsLookup(s: State, op: Op, n: Node)
    requires ListInv(s) && Sought(s, op, n)
    ensures Lookup(s, GoalKey(s, op)) == To(n)
  {
    LookupIs(s, GoalKey(s, op), n);
  }

  lemma AbsentIsLookup(s: State, op: Op)
    requires ListInv(s) && Absent(s, op)
    ensures if ByItem(op) then Lookup(s, GoalKey(s, op)) != To(op.goal.node) else Lookup(s, GoalKey(s, op)) == Null
  {
    var k := GoalKey(s, op);
    if n: Node :| Holds(s, k, n) {
      LookupIs(s, k, n);
      assert !Sought(s, op, n);
    } else {
      LookupIsNull(s, k);
    }
  }

  lemma LookIsSpec(s: State, l: Local, m: Met)
    requires Stands(l, m) && ListInv(s) && OnlyLooked(l) && l.pc.Return? && AnswerFits(l) && Answers(s, l.op, l.res)
    requires (l.op.Remove? || l.op.Find?) ==> l.op.goal.KeyIs?
    ensures Spec(s, s, l.op, m, l.res)
  {
    if Absent(s, l.op) {
      AbsentIsLookup(s, l.op);
    } else {
      var n: Node :| Sought(s, l.op, n);
      SoughtIsLookup(s, l.op, n);
      if l.res.Found? { SoughtIsLookup(s, l.op, l.res.node); }
      if l.res.DoneOld? { SoughtIsLookup(s, l.op, l.res.was.node); }
    }
  }

  lemma ChangeGoal(s: State, a: Action)
    requires ListInv(s) && a.Move? && EffectOf(s, a) != Silent
    ensures var f, op := EffectOf(s, a), s.local(a.t).op;
      && (f.Adds? || f.Swaps? ==> Inserts(op) && f.item == op.item && s.key(f.item) == GoalKey(s, op))
      && (f.Drops? || f.Swaps? ==> s.key(f.was) == GoalKey(s, op) && (ByItem(op) ==> f.was == op.goal.node))
  {
    assert LocalOk(s, a.t);
    if HasMark(s.local(a.t).pc) { UnmarkSucceeds(s, a.t); }
  }

  lemma ChangeIsSpec(s: State, a: Action, l: Local, m: Met)
    requires Stands(l, m) && ListInv(s) && Allowed(s, a) && a.Move? && l.op == s.local(a.t).op
      && EffectOf(s, a) != Silent
    requires l.pc.Return? && AnswerFits(l) && ChangeFor(l) == [EffectOf(s, a)]
    requires (l.op.Remove? || l.op.Find?) ==> l.op.goal.KeyIs?
    ensures Spec(s, Do(s, a), l.op, m, l.res)
  {
    ChangeGoal(s, a);
    var k := GoalKey(s, l.op);
    var p := if EffectOf(s, a).Drops? then Null else To(EffectOf(s, a).item);
    forall j: Key ensures Lookup(Do(s, a), j) == if j == k then p else Lookup(s, j) { MapEffect(s, a, j); }
    MapEffect(s, a, k);
    assert Becomes(s, Do(s, a), k, p);
  }

  lemma {:induction false} FindChange(s: State, actions: seq<Action>, t: Tid, f: Effect) returns (k: nat)
    requires f in Changes(s, actions, t)
    ensures k < |actions| && actions[k].Move? && actions[k].t == t && EffectOf(After(s, actions[..k]), actions[k]) == f
      && f != Silent
  {
    var n := |actions| - 1;
    if f in Changes(s, actions[..n], t) {
      k := FindChange(s, actions[..n], t, f);
      assert actions[..n][..k] == actions[..k];
    } else {
      k := n;
    }
  }

  lemma LookActs(s: State, actions: seq<Action>, t: Tid, op: Op, l: Local)
    requires Stands(l, MetIn(s, actions, t)) && Inv(s) && AllAllowed(s, actions) && InCall(s, actions, t) && l.op == op
      && OnlyLooked(l) && l.pc.Return?
      && AnswerFits(l)
    requires Once(s, actions, op, l.res) && ((op.Remove? || op.Find?) ==> op.goal.KeyIs?)
    ensures exists k :: ActsAt(s, actions, t, op, l.res, k)
  {
    var k :| 0 <= k <= |actions| && Answers(After(s, actions[..k]), op, l.res);
    PrefixAllowed(s, actions, t, k);
    RunKeepsInv(s, actions[..k]);
    LookIsSpec(After(s, actions[..k]), l, MetIn(s, actions, t));
    assert ActsAt(s, actions, t, op, l.res, k);
  }

  lemma ChangeActs(s: State, actions: seq<Action>, t: Tid, op: Op, l: Local, f: Effect)
    requires Stands(l, MetIn(s, actions, t)) && Inv(s) && AllAllowed(s, actions) && InCall(s, actions, t) && l.op == op
      && l.pc.Return? && AnswerFits(l)
      && ChangeFor(l) == [f]
    requires s.local(t).op == op && s.local(t).at.Head? && (s.local(t).pc.DrawFirst? || s.local(t).pc.Read?)
    requires Changes(s, actions, t) == [f] && ((op.Remove? || op.Find?) ==> op.goal.KeyIs?)
    ensures exists k :: ActsAt(s, actions, t, op, l.res, k)
  {
    var k := FindChange(s, actions, t, f);
    PrefixAllowed(s, actions, t, k);
    WholeCall(s, actions[..k], t, op);
    ChangeIsSpec(After(s, actions[..k]), actions[k], l, MetIn(s, actions, t));
    assert actions[..k + 1][..k] == actions[..k];
    assert ActsAt(s, actions, t, op, l.res, k);
  }

  /** A call that returns either only looked, or made the one change of its answer. */
  lemma AnswerShape(s: State, t: Tid)
    requires ListInv(s) && s.local(t).pc.Return? && AnswerFits(s.local(t))
    ensures var l := s.local(t);
      && (!l.res.Error? && !OnlyLooked(l) ==> |ChangeFor(l)| == 1)
      && (Failure(l.res) || l.op.Find? ==> ChangeFor(l) == [])
      && |ChangeFor(l)| <= 1
  {
    assert LocalOk(s, t);
  }

  lemma ReturnedCall(s: State, actions: seq<Action>, t: Tid, op: Op)
    requires Inv(s) && AllAllowed(s, actions) && InCall(s, actions, t) && After(s, actions).local(t).pc.Return?
    requires s.local(t).op == op && s.local(t).at.Head? && (s.local(t).pc.DrawFirst? || s.local(t).pc.Read?)
    requires (op.Remove? || op.Find?) ==> op.goal.KeyIs?
    ensures var r := After(s, actions).local(t).res;
      && (!r.Error? ==> exists k :: ActsAt(s, actions, t, op, r, k))
      && (Failure(r) || op.Find? ==> Changes(s, actions, t) == [])
      && |Changes(s, actions, t)| <= 1
  {
    WholeCall(s, actions, t, op);
    CallStands(s, actions, t);
    var l := After(s, actions).local(t);
    AnswerShape(After(s, actions), t);
    if !l.res.Error? {
      if OnlyLooked(l) { LookActs(s, actions, t, op, l); } else { ChangeActs(s, actions, t, op, l, ChangeFor(l)[0]); }
    }
  }

  /** Linearization. A call that returns without an error acts on the map, as its answer says, at one moment between
      call and return; of the map changes made by its own steps, that is the only one, and a call that answers that
      nothing was done made none. It ends in an error exactly when it found no hazard pointer or its condition callback
      failed, it answers NotMet exactly when the callback said so, and of all nodes it takes a reference of the one that
      it gives to the caller, and one. */
  lemma CallActsOnce(s: State, actions: seq<Action>, t: Tid, op: Op)
    requires Inv(s) && Allowed(s, Begin(t, op))
    requires var s1 := Do(s, Begin(t, op));
      AllAllowed(s1, actions) && InCall(s1, actions, t) && After(s1, actions).local(t).pc.Return?
    ensures var s1 := Do(s, Begin(t, op)); var r, m := After(s1, actions).local(t).res, MetIn(s1, actions, t);
      && (r.Error? <==> Failed(m))
      && (r.NotMet? <==> Refused(m))
      && (!r.Error? ==> exists k :: ActsAt(s1, actions, t, op, r, k))
      && (Failure(r) || op.Find? ==> Changes(s1, actions, t) == [])
      && |Changes(s1, actions, t)| <= 1
      && forall n: Node :: RefsTaken(s1, actions, t, n) == if Gives(op, r, n) then 1 else 0
  {
    ActionKeeps(s, Begin(t, op));
    var s1 := Do(s, Begin(t, op));
    ReturnedCall(s1, actions, t, op);
    CallStands(s1, actions, t);
    WholeCall(s1, actions, t, op);
    forall n: Node
      ensures RefsTaken(s1, actions, t, n) == if Gives(op, After(s1, actions).local(t).res, n) then 1 else 0 {
      CallTakes(s1, actions, t, n);
    }
  }
}
