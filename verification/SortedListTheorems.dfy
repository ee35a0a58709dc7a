/** What every run of the sorted list does, for any number of threads. */
module SortedListTheorems {
  import opened Memory
  import opened SortedList
  import opened SortedListSafety
  import opened SortedListAccounts

  // ---------- runs ----------

  ghost predicate Inv(s: State) { ListInv(s) && SeqInv(s) && RefInv(s) }

  function After(s: State, actions: seq<Action>): State {
    if actions == [] then s else Do(After(s, actions[..|actions| - 1]), actions[|actions| - 1])
  }

  ghost predicate AllAllowed(s: State, actions: seq<Action>) {
    forall k :: 0 <= k < |actions| ==> Allowed(After(s, actions[..k]), actions[k])
  }

  /** A run and one more action. */
  lemma OneMore(s: State, actions: seq<Action>, a: Action)
    requires AllAllowed(s, actions) && Allowed(After(s, actions), a)
    ensures AllAllowed(s, actions + [a]) && After(s, actions + [a]) == Do(After(s, actions), a)
  {
    var q := actions + [a];
    assert q[..|actions|] == actions;
    forall k | 0 <= k < |q| ensures Allowed(After(s, q[..k]), q[k]) {
      assert k < |actions| ==> q[..k] == actions[..k];
    }
  }

  lemma InitHolds(s: State)
    requires Init(s)
    ensures Inv(s)
  {
    assert forall t: Tid :: LocalOk(s, t) && SeqLocalOk(s, t);
    assert forall n: Node :: NodeOk(s, n) && RefsOk(s, n);
  }

  lemma ActionKeeps(s: State, a: Action)
    requires Inv(s) && Allowed(s, a)
    ensures Inv(Do(s, a))
  {
    ActionKeepsList(s, a);
    ActionKeepsNumbers(s, a);
    ActionKeepsRefs(s, a);
  }

  lemma {:induction false} RunKeepsInv(s: State, actions: seq<Action>)
    requires Inv(s) && AllAllowed(s, actions)
    ensures Inv(After(s, actions))
  {
    if actions != [] {
      var n := |actions| - 1;
      ShorterAllowed(s, actions);
      RunKeepsInv(s, actions[..n]);
      ActionKeeps(After(s, actions[..n]), actions[n]);
    }
  }

  lemma ShorterAllowed(s: State, actions: seq<Action>)
    requires actions != [] && AllAllowed(s, actions)
    ensures AllAllowed(s, actions[..|actions| - 1])
  {
    assert forall k :: 0 <= k < |actions| - 1 ==> actions[..|actions| - 1][..k] == actions[..k];
  }

  // ---------- the walk from head ----------

  ghost function Ahead(s: State, p: Ptr): set<Node> {
    set n: Node | n < s.created && s.status(n).Linked? && p.To? && s.key(p.node) <= s.key(n)
  }

  /** The nodes visited from p by following `next` with bit 0 cleared. */
  ghost function Walk(s: State, p: Ptr): (q: seq<Node>)
    requires ListInv(s) && (p.To? ==> s.status(p.node).Linked?)
    ensures forall n: Node :: n in q <==> s.status(n).Linked? && p.To? && s.key(p.node) <= s.key(n)
    ensures forall i, j :: 0 <= i < j < |q| ==> s.key(q[i]) < s.key(q[j])
    decreases Ahead(s, p)
  {
    if p.Null? then []
    else
      var nxt := s.next(p.node).ptr;
      assert LinkOk(s, NextOf(p.node)) && NodeOk(s, p.node);
      assert p.node in Ahead(s, p) && p.node !in Ahead(s, nxt);
      assert forall n: Node {:trigger s.status(n)} :: s.status(n).Linked? && s.key(p.node) < s.key(n) ==>
        nxt.To? && s.key(nxt.node) <= s.key(n) by {
        assert forall n: Node {:trigger s.status(n)} :: NoneSkipped(s, NextOf(p.node), n);
      }
      assert forall n: Node {:trigger s.status(n)} :: KeysDiffer(s, p.node, n);
      [p.node] + Walk(s, nxt)
  }

  /** The walk from head, bit 0 cleared, visits exactly the linked nodes, in strictly increasing key order, and ends. */
  lemma WalkVisitsList(s: State)
    requires ListInv(s)
    ensures s.head.To? ==> s.status(s.head.node).Linked?
    ensures forall n: Node :: n in Walk(s, s.head) <==> s.status(n).Linked?
    ensures forall i, j :: 0 <= i < j < |Walk(s, s.head)| ==> s.key(Walk(s, s.head)[i]) < s.key(Walk(s, s.head)[j])
  {
    assert LinkOk(s, Head);
    forall n: Node ensures n in Walk(s, s.head) <==> s.status(n).Linked? { assert NoneSkipped(s, Head, n); }
  }

  // ---------- what the list holds ----------

  /** What a step does to the list. */
  datatype Effect = Silent | Adds(item: Node) | Drops(was: Node) | Swaps(was: Node, item: Node)

  /** Only the link, unlink and replace CAS change what the list holds. */
  function EffectOf(s: State, a: Action): Effect {
    if !a.Move? then Silent
    else
      var l := s.local(a.t);
      match l.pc
      case LinkCas => if Inserts(l.op) && LinkAt(s, l.at) == Link(l.nxt, false) then Adds(l.op.item) else Silent
      case Unlink => if LinkAt(s, l.at) == Link(To(l.cur), false) then Drops(l.cur) else Silent
      case Replace =>
        if l.op.SetValue? && LinkAt(s, l.at) == Link(To(l.cur), false) then Swaps(l.cur, l.op.item) else Silent
      case _ => Silent
  }

  predicate Removes(f: Effect, n: Node) { (f.Drops? || f.Swaps?) && f.was == n }
  predicate Brings(f: Effect, n: Node) { (f.Adds? || f.Swaps?) && f.item == n }

  /** n was in the list and has been taken out. */
  predicate IsOut(s: State, n: Node) { s.status(n).Taken? || s.status(n).Retired? || s.status(n).Reclaimed? }

  /** What becomes of one node: it is in the list, and out of it again, by the effect alone, and once out its `next` is
      frozen. */
  ghost predicate NodeEffect(s: State, s': State, f: Effect, n: Node) {
    && (s'.status(n).Linked? <==> Brings(f, n) || (s.status(n).Linked? && !Removes(f, n)))
    && (IsOut(s', n) <==> Removes(f, n) || IsOut(s, n))
    && (s'.status(n).Taken? ==> Removes(f, n) || s.status(n).Taken?)
    && (s'.status(n).Reclaimed? ==> !s.status(n).Taken?)
    && (n < s.created ==> s'.key(n) == s.key(n))
    && (WasLinked(s, n) && !s'.status(n).Linked? ==> s'.next(n) == s.next(n))
  }

  lemma QuietEffect(s: State, t: Tid, e: Env, n: Node)
    requires ListInv(s) && var pc := s.local(t).pc; !(HasCur(pc) || InserterAt(pc) || pc.Retire? || pc.Return?)
    ensures NodeEffect(s, Step(s, t, e), EffectOf(s, Move(t, e)), n)
  {
    var s' := Step(s, t, e);
    assert s'.status == s.status && s'.next == s.next && s'.key == s.key;
  }

  lemma EndEffect(s: State, t: Tid, e: Env, n: Node)
    requires ListInv(s) && (s.local(t).pc.Retire? || s.local(t).pc.Return?)
    ensures NodeEffect(s, Step(s, t, e), EffectOf(s, Move(t, e)), n)
  {
    assert LocalOk(s, t);
  }

  lemma InsertEffect(s: State, t: Tid, e: Env, n: Node)
    requires ListInv(s) && InserterAt(s.local(t).pc) && Allowed(s, Move(t, e))
    ensures NodeEffect(s, Step(s, t, e), EffectOf(s, Move(t, e)), n)
  {
    assert LocalOk(s, t);
    if s.local(t).pc.LinkCas? && EffectOf(s, Move(t, e)).Adds? { LinkFits(s, t); }
  }

  lemma LockEffect(s: State, t: Tid, e: Env, n: Node)
    requires ListInv(s) && HasCur(s.local(t).pc) && Allowed(s, Move(t, e)) && !s.local(t).pc.Unlink?
      && !s.local(t).pc.Replace?
    ensures NodeEffect(s, Step(s, t, e), EffectOf(s, Move(t, e)), n)
  {
    assert LocalOk(s, t) && NodeOk(s, s.local(t).cur);
  }

  lemma CutEffect(s: State, t: Tid, e: Env, n: Node)
    requires ListInv(s) && (s.local(t).pc.Unlink? || s.local(t).pc.Replace?)
    ensures NodeEffect(s, Step(s, t, e), EffectOf(s, Move(t, e)), n)
  {
    assert LocalOk(s, t);
    UnmarkSucceeds(s, t);
    if EffectOf(s, Move(t, e)) != Silent { UnmarkedIsLive(s, t); }
  }

  lemma ActionEffect(s: State, a: Action, n: Node)
    requires ListInv(s) && Allowed(s, a)
    ensures NodeEffect(s, Do(s, a), EffectOf(s, a), n)
  {
    if a.Move? {
      var t, e, pc := a.t, a.env, s.local(a.t).pc;
      if pc.Unlink? || pc.Replace? { CutEffect(s, t, e, n); }
      else if HasCur(pc) { LockEffect(s, t, e, n); }
      else if InserterAt(pc) { InsertEffect(s, t, e, n); }
      else if pc.Retire? || pc.Return? { EndEffect(s, t, e, n); }
      else { QuietEffect(s, t, e, n); }
    } else {
      assert NodeOk(s, n);
    }
  }

  ghost predicate Holds(s: State, k: Key, n: Node) { s.status(n).Linked? && s.key(n) == k }

  /** The abstract map: the item that the list holds for a key. */
  ghost function Lookup(s: State, k: Key): Ptr {
    if exists n: Node :: Holds(s, k, n) then var n: Node :| Holds(s, k, n); To(n) else Null
  }

  lemma LookupIs(s: State, k: Key, n: Node)
    requires ListInv(s) && Holds(s, k, n)
    ensures Lookup(s, k) == To(n)
  {
    forall m: Node | Holds(s, k, m) ensures m == n { assert KeysDiffer(s, m, n); }
  }

  lemma LookupIsNull(s: State, k: Key)
    requires forall n: Node :: !Holds(s, k, n)
    ensures Lookup(s, k) == Null
  {
  }

  /** A CAS takes out a node that is in the list under its key, and puts one in where its key is free. */
  lemma EffectIsRight(s: State, a: Action)
    requires ListInv(s) && Allowed(s, a)
    ensures match EffectOf(s, a)
      case Silent => true
      case Adds(i) => !s.status(i).Linked? && forall n: Node :: !Holds(s, s.key(i), n)
      case Drops(w) => s.status(w).Linked?
      case Swaps(w, i) => s.status(w).Linked? && !s.status(i).Linked? && s.key(i) == s.key(w)
  {
    if a.Move? && EffectOf(s, a) != Silent {
      assert LocalOk(s, a.t);
      if s.local(a.t).pc.LinkCas? {
        LinkFits(s, a.t);
        var i := s.local(a.t).op.item;
        forall n: Node ensures !Holds(s, s.key(i), n) { assert NoneSkipped(s, s.local(a.t).at, n); }
      } else {
        UnmarkSucceeds(s, a.t);
      }
    }
  }

  lemma OldKeys(s: State, a: Action)
    requires ListInv(s) && Allowed(s, a)
    ensures forall n: Node {:trigger s.status(n)} :: s.status(n).Linked? ==> n < s.created
    ensures EffectOf(s, a).Adds? || EffectOf(s, a).Swaps? ==> EffectOf(s, a).item < s.created
  {
    forall n: Node ensures s.status(n).Linked? ==> n < s.created { assert NodeOk(s, n); }
    if a.Move? { assert LocalOk(s, a.t); }
  }

  lemma HoldsAfter(s: State, a: Action, k: Key, n: Node)
    requires ListInv(s) && Allowed(s, a)
    ensures var f := EffectOf(s, a);
      Holds(Do(s, a), k, n) <==> (Brings(f, n) && s.key(n) == k) || (Holds(s, k, n) && !Removes(f, n))
  {
    OldKeys(s, a);
    ActionEffect(s, a, n);
  }

  lemma LookupSame(s: State, s': State, k: Key)
    requires ListInv(s) && ListInv(s') && forall n: Node :: Holds(s', k, n) <==> Holds(s, k, n)
    ensures Lookup(s', k) == Lookup(s, k)
  {
    if n: Node :| Holds(s, k, n) {
      LookupIs(s, k, n);
      LookupIs(s', k, n);
    } else {
      LookupIsNull(s, k);
      LookupIsNull(s', k);
    }
  }

  lemma OtherKeysStay(s: State, a: Action, k: Key)
    requires ListInv(s) && ListInv(Do(s, a)) && Allowed(s, a)
    requires forall n: Node :: Removes(EffectOf(s, a), n) || Brings(EffectOf(s, a), n) ==> s.key(n) != k
    ensures Lookup(Do(s, a), k) == Lookup(s, k)
  {
    forall n: Node ensures Holds(Do(s, a), k, n) <==> Holds(s, k, n) { HoldsAfter(s, a, k, n); }
    LookupSame(s, Do(s, a), k);
  }

  /** The map changes only at a link, unlink or replace CAS, and there at exactly one key. */
  lemma MapEffect(s: State, a: Action, k: Key)
    requires ListInv(s) && Allowed(s, a)
    ensures match EffectOf(s, a)
      case Silent => Lookup(Do(s, a), k) == Lookup(s, k)
      case Adds(i) =>
        Lookup(s, s.key(i)) == Null && Lookup(Do(s, a), k) == if k == s.key(i) then To(i) else Lookup(s, k)
      case Drops(w) =>
        Lookup(s, s.key(w)) == To(w) && Lookup(Do(s, a), k) == if k == s.key(w) then Null else Lookup(s, k)
      case Swaps(w, i) =>
        Lookup(s, s.key(w)) == To(w) && s.key(i) == s.key(w) && Lookup(Do(s, a), k) == if k == s.key(w) then To(i)
          else Lookup(s, k)
  {
    ActionKeepsList(s, a);
    EffectIsRight(s, a);
    var f, s' := EffectOf(s, a), Do(s, a);
    match f
    case Silent => OtherKeysStay(s, a, k);
    case Adds(i) =>
      LookupIsNull(s, s.key(i));
      if k == s.key(i) { HoldsAfter(s, a, k, i); LookupIs(s', k, i); } else { OtherKeysStay(s, a, k); }
    case Drops(w) =>
      LookupIs(s, s.key(w), w);
      if k == s.key(w) {
        forall n: Node ensures !Holds(s', k, n) {
          HoldsAfter(s, a, k, n);
          assert KeysDiffer(s, n, w);
        }
        LookupIsNull(s', k);
      } else { OtherKeysStay(s, a, k); }
    case Swaps(w, i) =>
      LookupIs(s, s.key(w), w);
      if k == s.key(w) { HoldsAfter(s, a, k, i); LookupIs(s', k, i); } else { OtherKeysStay(s, a, k); }
  }

  // ---------- the delete lock ----------

  /** While t holds the delete lock of n, no other thread changes the `next` of n or takes n out of the list. */
  lemma LockedNodeIsFrozen(s: State, n: Node, t: Tid, u: Tid, e: Env)
    requires ListInv(s) && Allowed(s, Move(u, e)) && s.marker(n) == By(t) && u != t
    ensures Step(s, u, e).next(n) == s.next(n) && s.next(n).marked && Step(s, u, e).status(n) == s.status(n)
  {
    assert LocalOk(s, u) && NodeOk(s, n);
    var pc := s.local(u).pc;
    if HasMark(pc) { UnmarkSucceeds(s, u); }
    if InserterAt(pc) || pc.StoreOver? { assert NodeOk(s, s.local(u).op.item); }
    if OnlySetValue(pc) { OtherSetKeeps(s, n, t, u, e); }
  }

  lemma OtherSetKeeps(s: State, n: Node, t: Tid, u: Tid, e: Env)
    requires ListInv(s) && Allowed(s, Move(u, e)) && s.marker(n) == By(t) && u != t && OnlySetValue(s.local(u).pc)
    ensures Step(s, u, e).next(n) == s.next(n) && Step(s, u, e).status(n) == s.status(n)
  {
    assert LocalOk(s, u) && NodeOk(s, n) && NodeOk(s, s.local(u).op.item);
    UnmarkSucceeds(s, u);
  }

  /** A node that is out of the list keeps its delete lock and its `next` as long as anyone may read it. */
  lemma OutIsFrozen(s: State, n: Node, a: Action)
    requires ListInv(s) && Allowed(s, a) && WasLinked(s, n) && !s.status(n).Linked?
    ensures s.next(n).marked && Do(s, a).next(n) == s.next(n) && !Do(s, a).status(n).Linked?
  {
    assert NodeOk(s, n);
    ActionEffect(s, a, n);
    EffectIsRight(s, a);
    if a.Move? { assert LocalOk(s, a.t); }
  }

  /** When no call is between setting a delete lock and giving it back, no node in the list is locked. */
  lemma NoOwnerNoLock(s: State, n: Node)
    requires ListInv(s) && s.status(n).Linked? && forall t: Tid :: !HasMark(s.local(t).pc)
    ensures !s.next(n).marked
  {
    assert NodeOk(s, n);
  }

  /** The unlocking CAS never fails: no step of a lock owner ends in an error. */
  lemma OwnersNeverFail(s: State, t: Tid, e: Env)
    requires ListInv(s) && HasCur(s.local(t).pc)
    ensures Step(s, t, e).local(t).res == s.local(t).res || !Failure(Step(s, t, e).local(t).res)
  {
    assert LocalOk(s, t);
    if HasMark(s.local(t).pc) { UnmarkSucceeds(s, t); }
  }

  lemma OthersNeverFail(s: State, t: Tid, e: Env)
    requires var pc := s.local(t).pc; !HasCur(pc) && !Traversing(pc)
    ensures Step(s, t, e).local(t).res == s.local(t).res || !Failure(Step(s, t, e).local(t).res)
  {
  }

  /** A call fails with an error only for want of a hazard pointer or by its condition callback. */
  lemma ErrorHasCause(s: State, t: Tid, e: Env)
    requires ListInv(s) && Step(s, t, e).local(t).res.Error? && !s.local(t).res.Error?
    ensures s.local(t).pc.Check? && (!e.hazardOk || (s.local(t).op.SetValue? && e.verdict.CondError?))
  {
    if HasCur(s.local(t).pc) { OwnersNeverFail(s, t, e); }
    else if !Traversing(s.local(t).pc) { OthersNeverFail(s, t, e); }
  }

  // ---------- sequence numbers ----------

  /** The ways a number can be accounted for. */
  ghost predicate Held(s: State, n: int) { exists t: Tid :: s.local(t).holds && s.local(t).seqNo == n }

  lemma NumberIsSomewhere(s: State, n: int)
    requires Inv(s)
    ensures s.start < n <= s.seqNo ==> s.used[n] + s.skipped[n] + (if Held(s, n) then 1 else 0) == 1
    ensures !(s.start < n <= s.seqNo) ==> s.used[n] == 0 && s.skipped[n] == 0 && !Held(s, n)
  {
    assert NumberOk(s, n);
    forall t: Tid | s.local(t).holds && s.local(t).seqNo == n ensures n in s.holder && s.holder[n] == t {
      assert SeqLocalOk(s, t);
    }
  }

  /** In every run the numbers drawn so far, start + 1 to the counter, split into those of operations that took effect,
      those given to the skipped callback, and those held by operations in flight; none is in two places, and none is
      used or skipped twice. */
  lemma NumbersSplit(s: State, actions: seq<Action>, n: int)
    requires Init(s) && AllAllowed(s, actions)
    ensures var s' := After(s, actions);
      && (s'.start < n <= s'.seqNo ==> s'.used[n] + s'.skipped[n] + (if Held(s', n) then 1 else 0) == 1)
      && (!(s'.start < n <= s'.seqNo) ==> s'.used[n] == 0 && s'.skipped[n] == 0 && !Held(s', n))
  {
    InitHolds(s);
    RunKeepsInv(s, actions);
    NumberIsSomewhere(After(s, actions), n);
  }

  /** No two operations hold the same number. */
  lemma HeldByOne(s: State, t: Tid, u: Tid)
    requires Inv(s) && s.local(t).holds && s.local(u).holds && s.local(t).seqNo == s.local(u).seqNo
    ensures t == u
  {
    assert SeqLocalOk(s, t) && SeqLocalOk(s, u);
  }

  /** With no operation in flight every number drawn was either used or skipped. */
  lemma QuietNumbersSplit(s: State, n: int)
    requires Inv(s) && (forall t: Tid :: s.local(t).pc.Idle?) && s.start < n <= s.seqNo
    ensures s.used[n] + s.skipped[n] == 1
  {
    NumberIsSomewhere(s, n);
    forall t: Tid ensures !s.local(t).holds { assert SeqLocalOk(s, t) && LocalOk(s, t); }
  }

  /** The number under which an item is taken out is greater than the one under which it was put in, and the number
      under which an item is put in stays its number while it is in the list or gets a greater one. */
  lemma TakenOutLater(s: State, a: Action)
    requires Inv(s) && Allowed(s, a)
    ensures var f, s' := EffectOf(s, a), Do(s, a);
      && (f.Drops? || f.Swaps? ==> s.putSeq(f.was) < s.local(a.t).seqNo)
      && (f.Adds? || f.Swaps? ==> s'.putSeq(f.item) == s.local(a.t).seqNo)
      && (f != Silent ==> s'.used == s.used + multiset{s.local(a.t).seqNo})
  {
    if a.Move? { assert SeqLocalOk(s, a.t) && LocalOk(s, a.t); }
  }

  /** set_value of the item that is in the list already changes only its number. */
  predicate Renumbers(s: State, a: Action) { a.Move? && s.local(a.t).pc.UnmarkSame? }

  lemma SameItemUses(s: State, t: Tid, e: Env)
    requires Inv(s) && s.local(t).pc.UnmarkSame?
    ensures var l, s' := s.local(t), Step(s, t, e);
      s'.used == s.used + multiset{l.seqNo} && s'.putSeq(l.cur) == l.seqNo && s.putSeq(l.cur) < l.seqNo
  {
    assert SeqLocalOk(s, t) && LocalOk(s, t);
    StepIs(s, t, e);
    UnmarkSucceeds(s, t);
  }

  lemma SetUsesNone(s: State, t: Tid, e: Env)
    requires OnlySetValue(s.local(t).pc) && !s.local(t).pc.UnmarkSame? && EffectOf(s, Move(t, e)) == Silent
    ensures Step(s, t, e).used == s.used
  {
  }

  lemma WalkUsesNone(s: State, t: Tid, e: Env)
    requires !OnlySetValue(s.local(t).pc) && EffectOf(s, Move(t, e)) == Silent
    ensures Step(s, t, e).used == s.used
  {
  }

  /** A number counts as used in the step in which its operation takes effect, and in no other. */
  lemma UsedAtEffect(s: State, a: Action)
    requires Inv(s) && Allowed(s, a)
    ensures EffectOf(s, a) == Silent && !Renumbers(s, a) ==> Do(s, a).used == s.used
    ensures Renumbers(s, a) ==> var l, s' := s.local(a.t), Do(s, a);
      s'.used == s.used + multiset{l.seqNo} && s'.putSeq(l.cur) == l.seqNo && s.putSeq(l.cur) < l.seqNo
  {
    if Renumbers(s, a) { SameItemUses(s, a.t, a.env); }
    else if a.Move? && EffectOf(s, a) == Silent {
      if OnlySetValue(s.local(a.t).pc) { SetUsesNone(s, a.t, a.env); } else { WalkUsesNone(s, a.t, a.env); }
    }
  }

  lemma NumberOnlyGrows(s: State, a: Action, n: Node)
    requires Inv(s) && Allowed(s, a) && s.status(n).Linked? && Do(s, a).status(n).Linked?
    ensures s.putSeq(n) <= Do(s, a).putSeq(n)
  {
    if a.Move? {
      assert SeqLocalOk(s, a.t) && LocalOk(s, a.t) && NodeOk(s, n);
      if s.local(a.t).pc.LinkCas? { assert NodeOk(s, s.local(a.t).op.item); }
    }
  }

  // ---------- references ----------

  /** The count of a node in the list is one for the list and one for each handle outside; the list's reference stays
      until the node is reclaimed. */
  lemma CountIsShares(s: State, actions: seq<Action>, n: Node)
    requires Init(s) && AllAllowed(s, actions)
    ensures var s' := After(s, actions);
      s'.refs(n) == s'.handles(n) + (if WasLinked(s', n) then 1 else 0) && s'.handles(n) >= 0
  {
    InitHolds(s);
    RunKeepsInv(s, actions);
    assert RefsOk(After(s, actions), n);
  }

  lemma SetCounts(s: State, t: Tid, e: Env, n: Node)
    requires OnlySetValue(s.local(t).pc)
    ensures Step(s, t, e).refs == s.refs && (Step(s, t, e).status(n).Retired? ==> s.status(n).Retired?)
  {
  }

  lemma WalkCounts(s: State, t: Tid, e: Env, n: Node)
    requires var pc := s.local(t).pc;
      Traversing(pc) || pc.ReadNext? || pc.Mark? || pc.Unmark? || pc.Skip? || pc.Return? || pc.DrawFirst?
    ensures Step(s, t, e).refs == s.refs && (Step(s, t, e).status(n).Retired? ==> s.status(n).Retired?)
  {
  }

  lemma RestCounts(s: State, t: Tid, e: Env, n: Node)
    requires var pc := s.local(t).pc; InserterAt(pc) || pc.DrawMarked? || pc.Unlink? || pc.Idle?
    ensures Step(s, t, e).refs == s.refs && (Step(s, t, e).status(n).Retired? ==> s.status(n).Retired?)
  {
  }

  /** Only taking a reference and retiring touch the count, or the fate, of a node that is out. */
  lemma OtherStepsCount(s: State, t: Tid, e: Env, n: Node)
    requires var pc := s.local(t).pc; !pc.TakeRef? && !pc.Retire?
    ensures Step(s, t, e).refs == s.refs && (Step(s, t, e).status(n).Retired? ==> s.status(n).Retired?)
  {
    var pc := s.local(t).pc;
    if OnlySetValue(pc) { SetCounts(s, t, e, n); }
    else if InserterAt(pc) || pc.DrawMarked? || pc.Unlink? || pc.Idle? { RestCounts(s, t, e, n); }
    else { WalkCounts(s, t, e, n); }
  }

  /** No step raises a count from 0. */
  lemma ZeroIsFinal(s: State, a: Action, n: Node)
    requires Inv(s) && Allowed(s, a) && n < s.created && s.refs(n) == 0
    ensures Do(s, a).refs(n) == 0
  {
    assert RefsOk(s, n);
    if a.Move? {
      if s.local(a.t).pc.TakeRef? { TakeRefCounts(s, a.t, a.env); }
      else if !s.local(a.t).pc.Retire? { OtherStepsCount(s, a.t, a.env, n); }
    }
  }

  /** The cleanup callback runs once for each node: when its count gets to 0. */
  lemma CleanupOnce(s: State, actions: seq<Action>, n: Node)
    requires Init(s) && AllAllowed(s, actions)
    ensures var s' := After(s, actions); s'.cleanups(n) == (if n < s'.created && s'.refs(n) == 0 then 1 else 0)
  {
    InitHolds(s);
    RunKeepsInv(s, actions);
    assert RefsOk(After(s, actions), n) && NodeOk(After(s, actions), n);
  }

  /** The node whose memory the next access of t reads or writes. */
  ghost predicate Touches(l: Local, n: Node) {
    || (l.at == NextOf(n) && InList(l.pc))
    || (l.cur == n && (HasCur(l.pc) || TakesOut(l) || l.pc.TakeRef?))
    || (Inserts(l.op) && l.op.item == n && (l.pc.Store? || l.pc.StoreOver?))
  }

  /** No access goes to the memory of a node that was freed. */
  lemma TouchedIsAllocated(s: State, t: Tid, n: Node)
    requires Inv(s) && Touches(s.local(t), n) && forall e: Env :: Allowed(s, Move(t, e))
    ensures s.refs(n) > 0
  {
    assert LocalOk(s, t) && RefsOk(s, n);
    assert Allowed(s, Move(t, Env(true, CondOk)));
  }

  /** A node that validated its way through the hazard pointer check is in the list at that moment. */
  lemma ValidatedIsLinked(s: State, t: Tid)
    requires Inv(s) && s.local(t).pc.Check? && LinkAt(s, s.local(t).at) == Link(To(s.local(t).cur), false)
    ensures s.status(s.local(t).cur).Linked? && s.refs(s.local(t).cur) > 0
  {
    UnmarkedIsLive(s, t);
    assert RefsOk(s, s.local(t).cur);
  }

  /** A node is given to the hazard pointers once, by the call that unlinked it, after it is out of the list. */
  lemma RetiredOnce(s: State, a: Action, n: Node)
    requires Inv(s) && Allowed(s, a) && !s.status(n).Retired? && Do(s, a).status(n).Retired?
    ensures a.Move? && s.status(n) == Taken(a.t) && s.local(a.t).pc.Retire? && s.local(a.t).cur == n
  {
    assert NodeOk(s, n);
    if a.Move? {
      assert LocalOk(s, a.t);
      if !s.local(a.t).pc.TakeRef? && !s.local(a.t).pc.Retire? { OtherStepsCount(s, a.t, a.env, n); }
    }
  }
}
