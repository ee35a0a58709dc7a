/** Each call of the lock-free set, however the steps of others come between its own: an insert that returns has linked
    its item, once, and a remove that returns has unlinked it, once. A call is the run s, actions: s is the state just
    after it began, and the thread is not idle again before the end. */
module LockFreeSetCalls {
  import opened Memory
  import opened LockFreeSet
  import opened LockFreeSetSafety
  import opened LockFreeSetTheorems

  ghost predicate InCall(s: State, actions: seq<Action>, t: Tid) {
    forall k :: 0 <= k <= |actions| ==> !After(s, actions[..k]).local(t).pc.Idle?
  }

  /** The k-th action of the run is the head CAS of t, or the unlink CAS of t, for its item. */
  ghost predicate LinksAt(s: State, actions: seq<Action>, t: Tid, x: Item, k: nat)
    requires k < |actions|
  {
    Links(After(s, actions[..k]), actions[k]) && actions[k].t == t && After(s, actions[..k]).local(t).x == x
  }

  ghost predicate UnlinksAt(s: State, actions: seq<Action>, t: Tid, x: Item, k: nat)
    requires k < |actions|
  {
    Unlinks(After(s, actions[..k]), actions[k]) && actions[k].t == t && After(s, actions[..k]).local(t).x == x
  }

  /** How often t linked x in the run, and how often it unlinked it. */
  ghost function LinkCount(s: State, actions: seq<Action>, t: Tid, x: Item): nat {
    if actions == [] then 0
    else
      LinkCount(s, actions[..|actions| - 1], t, x) + if LinksAt(s, actions, t, x, |actions| - 1) then 1 else 0
  }

  ghost function UnlinkCount(s: State, actions: seq<Action>, t: Tid, x: Item): nat {
    if actions == [] then 0
    else
      UnlinkCount(s, actions[..|actions| - 1], t, x) + if UnlinksAt(s, actions, t, x, |actions| - 1) then 1 else 0
  }

  /** Some thread linked x, or unlinked it, in the run. */
  ghost predicate LinkedIn(s: State, actions: seq<Action>, x: Item) {
    exists k: nat, u: Tid :: k < |actions| && LinksAt(s, actions, u, x, k)
  }

  ghost predicate UnlinkedIn(s: State, actions: seq<Action>, x: Item) {
    exists k: nat, u: Tid :: k < |actions| && UnlinksAt(s, actions, u, x, k)
  }

  // ---------- the run of a call ----------

  lemma ActionKeeps(s: State, a: Action)
    requires Inv(s) && Allowed(s, a)
    ensures Inv(Do(s, a))
  {
    if a.Step? { AccessKeeps(s, a.t); } else { BeginKeeps(s, a); }
  }

  /** The run without its last action. */
  lemma WithoutLast(s: State, actions: seq<Action>, t: Tid)
    requires actions != [] && AllAllowed(s, actions) && InCall(s, actions, t)
    ensures var q := actions[..|actions| - 1];
      && AllAllowed(s, q) && InCall(s, q, t) && Allowed(After(s, q), actions[|actions| - 1])
      && !After(s, q).local(t).pc.Idle? && !After(s, actions).local(t).pc.Idle?
  {
    var q := actions[..|actions| - 1];
    assert forall k :: 0 <= k <= |q| ==> q[..k] == actions[..k];
    assert q == actions[..|q|] && actions == actions[..|actions|];
  }

  lemma Longer(s: State, actions: seq<Action>, x: Item)
    requires actions != []
    ensures LinkedIn(s, actions[..|actions| - 1], x) ==> LinkedIn(s, actions, x)
    ensures UnlinkedIn(s, actions[..|actions| - 1], x) ==> UnlinkedIn(s, actions, x)
  {
    var q := actions[..|actions| - 1];
    if k: nat, u: Tid :| k < |q| && LinksAt(s, q, u, x, k) {
      assert q[..k] == actions[..k] && LinksAt(s, actions, u, x, k);
    }
    if k: nat, u: Tid :| k < |q| && UnlinksAt(s, q, u, x, k) {
      assert q[..k] == actions[..k] && UnlinksAt(s, actions, u, x, k);
    }
  }

  /** An item comes into the set by a head CAS for it, and leaves it by an unlink CAS for it. */
  lemma OneAction(s: State, a: Action, x: Item)
    requires Inv(s) && Allowed(s, a)
    ensures Linked(Do(s, a), x) && !Linked(s, x) ==> Links(s, a) && s.local(a.t).x == x
    ensures !Linked(Do(s, a), x) && Linked(s, x) ==> Unlinks(s, a) && s.local(a.t).x == x
    ensures Links(s, a) ==> Linked(Do(s, a), s.local(a.t).x)
    ensures Unlinks(s, a) ==> !Linked(Do(s, a), s.local(a.t).x)
  {
    StepEffect(s, a);
    WalkVisitsSet(s);
    WalkVisitsSet(Do(s, a));
    if Unlinks(s, a) {
      InWithout(Walk(s, s.head), s.local(a.t).x, x);
      InWithout(Walk(s, s.head), s.local(a.t).x, s.local(a.t).x);
    }
    if Links(s, a) { assert ([s.local(a.t).x] + Walk(s, s.head))[0] == s.local(a.t).x; }
  }

  lemma {:induction false} InWithout(q: seq<Item>, x: Item, y: Item)
    requires forall i, j :: 0 <= i < j < |q| ==> q[i] != q[j]
    ensures y in Without(q, x) <==> y in q && y != x
  {
    if q != [] { InWithout(q[1..], x, y); }
  }

  // ---------- insert ----------

  /** Where an insert of x by t stands, after so many links and unlinks of x by t. */
  ghost predicate InsertStands(l: Local, x: Item, links: nat, unlinks: nat) {
    && l.x == x && unlinks == 0
    && if InLinking(l.pc) then links == 0 else (l.pc.InsFixPrev? || l.pc.Returned?) && links == 1
  }

  lemma MyInsertStep(s: State, t: Tid)
    requires Inv(s) && var pc := s.local(t).pc; InLinking(pc) || pc.InsFixPrev? || pc.Returned?
    requires !Access(s, t).local(t).pc.Idle?
    ensures var l, l' := s.local(t), Access(s, t).local(t);
      && l'.x == l.x && !Unlinks(s, Step(t)) && (Links(s, Step(t)) ==> InLinking(l.pc))
      && (InLinking(l'.pc) <==> InLinking(l.pc) && !Links(s, Step(t)))
      && (!InLinking(l'.pc) ==> l'.pc.InsFixPrev? || l'.pc.Returned?)
  {
    assert LocalOk(s, t);
  }

  /** The action of another thread. */
  lemma TheirStep(s: State, a: Action, t: Tid)
    requires Allowed(s, a) && a.t != t && !s.local(t).pc.Idle?
    ensures Do(s, a).local(t) == s.local(t)
  {
  }

  lemma {:induction false} InsertRun(s: State, actions: seq<Action>, t: Tid, x: Item)
    requires Inv(s) && AllAllowed(s, actions) && InCall(s, actions, t) && InLinking(s.local(t).pc) && s.local(t).x == x
    ensures Inv(After(s, actions))
    ensures var l := After(s, actions).local(t);
      InsertStands(l, x, LinkCount(s, actions, t, x), UnlinkCount(s, actions, t, x))
    ensures LinkCount(s, actions, t, x) == 1 ==> Linked(After(s, actions), x) || UnlinkedIn(s, actions, x)
  {
    if actions != [] {
      var n := |actions| - 1;
      var q, a := actions[..n], actions[n];
      WithoutLast(s, actions, t);
      InsertRun(s, q, t, x);
      var s1 := After(s, q);
      ActionKeeps(s1, a);
      if a.t == t { MyInsertStep(s1, t); } else { TheirStep(s1, a, t); }
      OneAction(s1, a, x);
      Longer(s, actions, x);
      if Unlinks(s1, a) && s1.local(a.t).x == x { assert UnlinksAt(s, actions, a.t, x, n); }
    }
  }

  /** An insert that returns has linked its item, once; so the item is in the set, unless a remove has taken it out
      again since. */
  lemma InsertLinksOnce(s: State, actions: seq<Action>, t: Tid, x: Item)
    requires Inv(s) && Allowed(s, BeginInsert(t, x))
    requires var s1 := Do(s, BeginInsert(t, x));
      AllAllowed(s1, actions) && InCall(s1, actions, t) && After(s1, actions).local(t).pc.Returned?
    ensures var s1 := Do(s, BeginInsert(t, x));
      && LinkCount(s1, actions, t, x) == 1 && UnlinkCount(s1, actions, t, x) == 0
      && Inv(After(s1, actions))
      && (x in Walk(After(s1, actions), After(s1, actions).head) || UnlinkedIn(s1, actions, x))
  {
    var s1 := Do(s, BeginInsert(t, x));
    ActionKeeps(s, BeginInsert(t, x));
    InsertRun(s1, actions, t, x);
    WalkVisitsSet(After(s1, actions));
  }

  // ---------- remove ----------

  ghost predicate RemoveStands(l: Local, x: Item, links: nat, unlinks: nat) {
    && l.x == x && links == 0
    && if InLeaving(l.pc) then unlinks == 0 else (InPending(l.pc) || l.pc.Returned?) && unlinks == 1
  }

  /** The remove of t goes on towards its unlink CAS, takes it, or goes on from it. */
  ghost predicate RemoveGoesOn(s: State, t: Tid) {
    var l, l' := s.local(t), Access(s, t).local(t);
    && l'.x == l.x && !Links(s, Step(t)) && (Unlinks(s, Step(t)) ==> InLeaving(l.pc))
    && (InLeaving(l'.pc) <==> InLeaving(l.pc) && !Unlinks(s, Step(t)))
    && (!InLeaving(l'.pc) ==> InPending(l'.pc) || l'.pc.Returned?)
  }

  predicate OnHeadPath(pc: Pc) {
    || pc.RemReadHead? || pc.HeadReadNext? || pc.HeadReadPrev? || pc.HeadLockPrev? || pc.HeadLockNext? || pc.HeadCas?
    || pc.HeadUnlockNext? || pc.HeadFixPrev? || pc.UnlockPrev?
  }

  lemma HeadStep(s: State, t: Tid)
    requires LocalOk(s, t) && OnHeadPath(s.local(t).pc)
    requires !Access(s, t).local(t).pc.Failed? && !Access(s, t).local(t).pc.Crashed?
    ensures RemoveGoesOn(s, t)
  {
    assert Access(s, t) == RemoveHeadAccess(s, t);
  }

  lemma MidLockStep(s: State, t: Tid)
    requires LocalOk(s, t)
    requires var pc := s.local(t).pc;
      pc.MidReadPrev? || pc.MidLockPrev? || pc.MidReadNext? || pc.MidLockNext? || pc.MidCheckHead?
        || pc.MidReadPrevNext?
    requires !Access(s, t).local(t).pc.Failed? && !Access(s, t).local(t).pc.Crashed?
    ensures RemoveGoesOn(s, t)
  {
    assert Access(s, t) == RemoveMidAccess(s, t);
  }

  lemma MidRestStep(s: State, t: Tid)
    requires LocalOk(s, t)
    requires var pc := s.local(t).pc;
      pc.MidUnlink? || pc.MidUnlockPrev? || pc.MidUnlockNext? || pc.MidReadNextPrev? || pc.MidFixPrev?
    requires !Access(s, t).local(t).pc.Failed? && !Access(s, t).local(t).pc.Crashed?
    ensures RemoveGoesOn(s, t)
  {
    assert Access(s, t) == RemoveMidAccess(s, t);
  }

  lemma MyRemoveStep(s: State, t: Tid)
    requires Inv(s) && (InLeaving(s.local(t).pc) || InPending(s.local(t).pc))
    ensures RemoveGoesOn(s, t)
  {
    AccessKeeps(s, t);
    assert LocalOk(s, t) && LocalOk(Access(s, t), t);
    var pc := s.local(t).pc;
    if OnHeadPath(pc) { HeadStep(s, t); }
    else if pc.MidUnlink? || pc.MidUnlockPrev? || pc.MidUnlockNext? || pc.MidReadNextPrev? || pc.MidFixPrev? {
      MidRestStep(s, t);
    } else {
      MidLockStep(s, t);
    }
  }

  lemma {:induction false} RemoveRun(s: State, actions: seq<Action>, t: Tid, x: Item)
    requires Inv(s) && AllAllowed(s, actions) && InCall(s, actions, t) && InLeaving(s.local(t).pc) && s.local(t).x == x
    ensures Inv(After(s, actions))
    ensures var l := After(s, actions).local(t);
      RemoveStands(l, x, LinkCount(s, actions, t, x), UnlinkCount(s, actions, t, x))
    ensures UnlinkCount(s, actions, t, x) == 1 ==> !Linked(After(s, actions), x) || LinkedIn(s, actions, x)
  {
    if actions != [] {
      var n := |actions| - 1;
      var q, a := actions[..n], actions[n];
      WithoutLast(s, actions, t);
      RemoveRun(s, q, t, x);
      var s1 := After(s, q);
      ActionKeeps(s1, a);
      if a.t != t { TheirStep(s1, a, t); } else if !s1.local(t).pc.Returned? { MyRemoveStep(s1, t); }
      OneAction(s1, a, x);
      Longer(s, actions, x);
      if Links(s1, a) && s1.local(a.t).x == x { assert LinksAt(s, actions, a.t, x, n); }
    }
  }

  /** A remove that returns has unlinked its item, once; so the item is not in the set, unless an insert has put it in
      again since. */
  lemma RemoveUnlinksOnce(s: State, actions: seq<Action>, t: Tid, x: Item)
    requires Inv(s) && Allowed(s, BeginRemove(t, x))
    requires var s1 := Do(s, BeginRemove(t, x));
      AllAllowed(s1, actions) && InCall(s1, actions, t) && After(s1, actions).local(t).pc.Returned?
    ensures var s1 := Do(s, BeginRemove(t, x));
      && UnlinkCount(s1, actions, t, x) == 1 && LinkCount(s1, actions, t, x) == 0
      && Inv(After(s1, actions))
      && (x !in Walk(After(s1, actions), After(s1, actions).head) || LinkedIn(s1, actions, x))
  {
    var s1 := Do(s, BeginRemove(t, x));
    ActionKeeps(s, BeginRemove(t, x));
    RemoveRun(s1, actions, t, x);
    WalkVisitsSet(After(s1, actions));
  }
}
