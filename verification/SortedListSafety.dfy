module SortedListSafety {
  import opened Memory
  import opened SortedList

  // ---------- what a step of one thread leaves to the others ----------

  ghost predicate Rely(s: State, s': State, t: Tid) {
    && s'.key == s.key && s'.created == s.created
    && (forall u: Tid :: u != t ==> s'.local(u) == s.local(u))
    && (forall n: Node :: NodeRely(s, s', t, n))
  }

  /** Nodes that were linked stay readable; what another thread owns it keeps. */
  ghost predicate NodeRely(s: State, s': State, t: Tid, n: Node) {
    && (WasLinked(s, n) ==> WasLinked(s', n))
    && (s.status(n).Offered? && s.status(n).who != t ==> s'.status(n) == s.status(n) && s'.next(n) == s.next(n))
    && (s'.status(n).Offered? && s'.status(n).who != t ==> s'.status(n) == s.status(n))
    && (s.status(n).Taken? && s.status(n).who != t ==> s'.status(n) == s.status(n))
    && (s.marker(n).By? && s.marker(n).who != t ==> s'.marker(n) == s.marker(n) && s'.next(n) == s.next(n))
  }

  lemma OthersKeepAt(s: State, s': State, t: Tid, u: Tid)
    requires u != t && Rely(s, s', t) && LocalOk(s, u)
    ensures AtOk(s', s'.local(u))
  {
    var l := s.local(u);
    assert l.at.NextOf? ==> NodeRely(s, s', t, l.at.node);
    assert l.nxt.To? ==> NodeRely(s, s', t, l.nxt.node);
    assert Inserts(l.op) ==> NodeRely(s, s', t, l.op.item);
  }

  lemma OthersKeep(s: State, s': State, t: Tid, u: Tid)
    requires u != t && Rely(s, s', t) && LocalOk(s, u)
    ensures LocalOk(s', u)
  {
    OthersKeepAt(s, s', t, u);
    var l := s.local(u);
    assert NodeRely(s, s', t, l.cur);
    assert Inserts(l.op) ==> NodeRely(s, s', t, l.op.item);
  }

  lemma LocalsKeep(s: State, s': State, t: Tid)
    requires Rely(s, s', t) && (forall u: Tid :: LocalOk(s, u)) && LocalOk(s', t)
    ensures forall u: Tid :: LocalOk(s', u)
  {
    forall u: Tid ensures LocalOk(s', u) {
      if u != t { OthersKeep(s, s', t, u); }
    }
  }

  // ---------- steps that change no link ----------

  ghost predicate SameList(s: State, s': State) {
    s'.head == s.head && s'.next == s.next && s'.status == s.status && s'.marker == s.marker && s'.key == s.key
      && s'.created == s.created
  }

  /** The thread goes on with the same call and keeps what it owns. */
  ghost predicate GoesOn(l: Local, l': Local) {
    && (HasMark(l.pc) ==> HasMark(l'.pc) && l'.cur == l.cur)
    && (!l.pc.Idle? && Inserts(l.op) ==> !l'.pc.Idle? && l'.op == l.op)
    && (TakesOut(l) ==> TakesOut(l') && l'.cur == l.cur)
  }

  lemma SameSorted(s: State, s': State)
    requires SameList(s, s') && Sorted(s)
    ensures Sorted(s')
  {
    forall at: Loc ensures LinkOk(s', at) { assert LinkOk(s, at); }
    forall at: Loc, m: Node ensures NoneSkipped(s', at, m) { assert NoneSkipped(s, at, m); }
    forall m: Node, n: Node ensures KeysDiffer(s', m, n) { assert KeysDiffer(s, m, n); }
  }

  lemma QuietKeeps(s: State, s': State, t: Tid)
    requires ListInv(s) && SameList(s, s') && (forall u: Tid :: u != t ==> s'.local(u) == s.local(u))
    requires GoesOn(s.local(t), s'.local(t)) && LocalOk(s', t)
    ensures ListInv(s')
  {
    SameSorted(s, s');
    LocalsKeep(s, s', t);
    forall n: Node ensures NodeOk(s', n) { assert NodeOk(s, n); }
  }

  /** An unmarked link leads from a linked place to a linked node: what a validated hazard pointer is good for. */
  lemma UnmarkedIsLive(s: State, t: Tid)
    requires ListInv(s) && InList(s.local(t).pc) && !LinkAt(s, s.local(t).at).marked
    ensures Live(s, s.local(t).at)
    ensures LinkAt(s, s.local(t).at).ptr.To? ==>
      s.status(LinkAt(s, s.local(t).at).ptr.node).Linked? && Above(s, s.local(t).at, LinkAt(s, s.local(t).at).ptr.node)
  {
    assert LocalOk(s, t) && LinkOk(s, s.local(t).at);
    assert s.local(t).at.NextOf? ==> NodeOk(s, s.local(t).at.node);
  }

  lemma RunKeeps(s: State, t: Tid, l: Local)
    requires ListInv(s) && GoesOn(s.local(t), l) && Knows(s, t, l)
    ensures ListInv(Run(s, t, l))
  {
    QuietKeeps(s, Run(s, t, l), t);
  }

  lemma VisitKnows(s: State, t: Tid, e: Env)
    requires ListInv(s) && s.local(t).pc.Check? && s.status(s.local(t).cur).Linked?
    ensures var l := s.local(t); Knows(s, t, Visit(l, Compare(s, l.op, l.cur), e))
  {
    assert LocalOk(s, t);
  }

  lemma TraverseKeeps(s: State, t: Tid, e: Env)
    requires ListInv(s) && Traversing(s.local(t).pc)
    ensures ListInv(Run(s, t, Traverse(s, s.local(t), e)))
  {
    assert LocalOk(s, t);
    var l := s.local(t);
    if l.pc.Check? && LinkAt(s, l.at) == Link(To(l.cur), false) {
      UnmarkedIsLive(s, t);
      VisitKnows(s, t, e);
    }
    RunKeeps(s, t, Traverse(s, l, e));
  }

  lemma DrawKeeps(s: State, t: Tid, pc: Pc)
    requires ListInv(s) && GoesOn(s.local(t), s.local(t).(pc := pc)) && Knows(s, t, s.local(t).(pc := pc))
    ensures ListInv(Draw(s, t, pc))
  {
    QuietKeeps(s, Draw(s, t, pc), t);
  }

  lemma DrawStep(s: State, t: Tid, e: Env)
    requires ListInv(s) && (s.local(t).pc.DrawFirst? || s.local(t).pc.DrawMarked? || s.local(t).pc.Redraw?)
    ensures ListInv(Step(s, t, e))
  {
    assert LocalOk(s, t);
    var l := s.local(t);
    if l.pc.DrawFirst? { DrawKeeps(s, t, Read); }
    else if l.pc.DrawMarked? { DrawKeeps(s, t, Unlink); }
    else { DrawKeeps(s, t, AfterSeq(l)); }
  }

  lemma SkipKeeps(s: State, t: Tid, l: Local)
    requires ListInv(s) && GoesOn(s.local(t), l) && Knows(s, t, l)
    ensures ListInv(SkipSeq(s, t, l))
  {
    QuietKeeps(s, SkipSeq(s, t, l), t);
  }

  lemma OtherQuietStep(s: State, t: Tid, e: Env)
    requires ListInv(s)
    requires s.local(t).pc.Skip? || s.local(t).pc.CheckSeq? || s.local(t).pc.DropSeq? || s.local(t).pc.ReadNext?
    ensures ListInv(Step(s, t, e))
  {
    assert LocalOk(s, t);
    var l := s.local(t);
    if l.pc.Skip? { SkipKeeps(s, t, Restart(l)); }
    else if l.pc.DropSeq? { SkipKeeps(s, t, l.(pc := Redraw)); }
    else if l.pc.CheckSeq? { RunKeeps(s, t, l.(pc := if s.seqNo != l.seqNo then DropSeq else AfterSeq(l))); }
    else { RunKeeps(s, t, l.(pc := Mark, nxt := s.next(l.cur).ptr)); }
  }

  lemma TakeRefStep(s: State, t: Tid, e: Env)
    requires ListInv(s) && s.local(t).pc.TakeRef?
    ensures ListInv(Step(s, t, e))
  {
    assert LocalOk(s, t);
    QuietKeeps(s, Step(s, t, e), t);
  }

  // ---------- steps that change links but not the walk ----------

  ghost predicate SameWalk(s: State, s': State) {
    && s'.head == s.head && s'.key == s.key
    && (forall n: Node {:trigger s'.status(n)} :: s'.status(n).Linked? == s.status(n).Linked?)
    && (forall n: Node {:trigger s'.next(n)} :: s.status(n).Linked? ==> s'.next(n).ptr == s.next(n).ptr)
  }

  lemma SameWalkSorted(s: State, s': State)
    requires SameWalk(s, s') && Sorted(s)
    ensures Sorted(s')
  {
    forall at: Loc ensures LinkOk(s', at) { assert LinkOk(s, at); }
    forall at: Loc, m: Node ensures NoneSkipped(s', at, m) { assert NoneSkipped(s, at, m); }
    forall m: Node, n: Node ensures KeysDiffer(s', m, n) { assert KeysDiffer(s, m, n); }
  }

  /** Only the nodes c changed, and of the others only t may depend on them. */
  lemma FewNodesKeep(s: State, s': State, t: Tid, c: set<Node>)
    requires ListInv(s) && Sorted(s') && Rely(s, s', t) && LocalOk(s', t)
    requires forall n: Node :: n in c ==> NodeOk(s', n)
    requires forall n: Node :: n !in c ==>
      s'.status(n) == s.status(n) && s'.next(n) == s.next(n) && s'.marker(n) == s.marker(n)
    requires Leaves(s.local(t), s'.local(t), c)
    ensures ListInv(s')
  {
    LocalsKeep(s, s', t);
    forall n: Node ensures NodeOk(s', n) { assert NodeOk(s, n); }
  }

  /** The thread keeps what it owns, except among the nodes c. */
  ghost predicate Leaves(l: Local, l': Local, c: set<Node>) {
    && (HasMark(l.pc) && l.cur !in c ==> HasMark(l'.pc) && l'.cur == l.cur)
    && (!l.pc.Idle? && Inserts(l.op) && l.op.item !in c ==> !l'.pc.Idle? && l'.op == l.op)
    && (TakesOut(l) && l.cur !in c ==> TakesOut(l') && l'.cur == l.cur)
  }

  lemma StoreKeeps(s: State, t: Tid, pc: Pc)
    requires ListInv(s) && ((s.local(t).pc.Store? && pc.LinkCas?) || (s.local(t).pc.StoreOver? && pc.Replace?))
    requires Inserts(s.local(t).op) && s.status(s.local(t).op.item) == Offered(t)
    ensures var l := s.local(t); ListInv(Run(s.(next := Put(s.next, l.op.item, Link(l.nxt, false))), t, l.(pc := pc)))
  {
    assert LocalOk(s, t);
    var l := s.local(t);
    var s' := Run(s.(next := Put(s.next, l.op.item, Link(l.nxt, false))), t, l.(pc := pc));
    assert NodeOk(s, l.op.item) && NodeOk(s, l.cur);
    SameWalkSorted(s, s');
    FewNodesKeep(s, s', t, {l.op.item});
  }

  /** s with the lock of the node cur of t set by t, or given back by t. */
  function Remark(s: State, t: Tid, mark: bool): State {
    var l := s.local(t);
    s.(next := Put(s.next, l.cur, Link(l.nxt, mark)), marker := Put(s.marker, l.cur, if mark then By(t) else NoOne))
  }

  lemma RemarkKeeps(s: State, t: Tid, l': Local, mark: bool)
    requires ListInv(s) && HasCur(s.local(t).pc)
    requires var l := s.local(t); s.next(l.cur) == Link(l.nxt, !mark) && l'.op == l.op && !l'.pc.Idle?
    requires if mark then s.local(t).pc.Mark? && HasMark(l'.pc) && l'.cur == s.local(t).cur
      else HasMark(s.local(t).pc) && !HasMark(l'.pc)
    requires Knows(Remark(s, t, mark), t, l')
    ensures ListInv(Run(Remark(s, t, mark), t, l'))
  {
    assert LocalOk(s, t);
    var l := s.local(t);
    var s' := Run(Remark(s, t, mark), t, l');
    assert NodeOk(s, l.cur);
    SameWalkSorted(s, s');
    FewNodesKeep(s, s', t, {l.cur});
  }

  lemma MarkStep(s: State, t: Tid, e: Env)
    requires ListInv(s) && s.local(t).pc.Mark?
    ensures ListInv(Step(s, t, e))
  {
    assert LocalOk(s, t);
    var l := s.local(t);
    if s.next(l.cur) == Link(l.nxt, false) {
      RemarkKeeps(s, t, l.(pc := NextOp(l.op)), true);
    } else {
      RunKeeps(s, t, Restart(l));
    }
  }

  /** Giving a delete lock back always succeeds: only its owner changes the link, and the node is still in the list. */
  lemma UnmarkSucceeds(s: State, t: Tid)
    requires ListInv(s) && HasMark(s.local(t).pc)
    ensures var l := s.local(t); s.next(l.cur) == Link(l.nxt, true) && s.status(l.cur).Linked?
  {
    assert LocalOk(s, t) && NodeOk(s, s.local(t).cur);
  }

  lemma UnmarkStep(s: State, t: Tid, e: Env)
    requires ListInv(s) && s.local(t).pc.Unmark?
    ensures ListInv(Step(s, t, e))
  {
    assert LocalOk(s, t);
    UnmarkSucceeds(s, t);
    var l := s.local(t);
    RemarkKeeps(s, t, if l.op.SetValue? then Restart(l) else l.(pc := Skip), false);
  }

  lemma UnmarkSameStep(s: State, t: Tid, e: Env)
    requires ListInv(s) && s.local(t).pc.UnmarkSame?
    ensures ListInv(Step(s, t, e))
  {
    assert LocalOk(s, t);
    UnmarkSucceeds(s, t);
    var l := s.local(t);
    var l' := l.(pc := Return, res := DoneOld(To(l.cur)), holds := false);
    RemarkKeeps(s, t, l', false);
    QuietKeeps(Run(Remark(s, t, false), t, l'), Step(s, t, e), t);
  }

  // ---------- linking an item ----------

  /** Item i is linked at location at, in front of what was there. */
  ghost predicate Joined(s: State, s': State, at: Loc, i: Node) {
    && s'.key == s.key && s'.status(i).Linked? && LinkAt(s', at).ptr == To(i)
    && (forall n: Node {:trigger s'.status(n)} :: n != i ==> s'.status(n) == s.status(n))
    && (forall loc: Loc {:trigger LinkAt(s', loc)} :: loc != at ==> LinkAt(s', loc) == LinkAt(s, loc))
  }

  /** The item belongs between the location and what it points to. */
  ghost predicate Fits(s: State, at: Loc, i: Node) {
    && Live(s, at) && !s.status(i).Linked? && at != NextOf(i) && Above(s, at, i)
    && s.next(i).ptr == LinkAt(s, at).ptr
    && (LinkAt(s, at).ptr.To? ==> s.key(i) < s.key(LinkAt(s, at).ptr.node))
  }

  lemma JoinLinkOk(s: State, s': State, at: Loc, i: Node, loc: Loc)
    requires Sorted(s) && Fits(s, at, i) && Joined(s, s', at, i)
    ensures LinkOk(s', loc)
  {
    assert LinkOk(s, at) && LinkOk(s, loc);
  }

  lemma JoinSkipsOld(s: State, s': State, at: Loc, i: Node, loc: Loc, m: Node)
    requires Sorted(s) && Fits(s, at, i) && Joined(s, s', at, i) && m != i
    ensures NoneSkipped(s', loc, m)
  {
    assert NoneSkipped(s, at, m) && NoneSkipped(s, loc, m);
  }

  lemma JoinSkipsNew(s: State, s': State, at: Loc, i: Node, loc: Loc)
    requires Sorted(s) && Fits(s, at, i) && Joined(s, s', at, i)
    ensures NoneSkipped(s', loc, i)
  {
    if loc != at && loc != NextOf(i) && Live(s, loc) && Above(s, loc, i) {
      if at.NextOf? { assert NoneSkipped(s, loc, at.node); }
      if loc.NextOf? { assert NoneSkipped(s, at, loc.node); }
      if at.NextOf? && loc.NextOf? { assert KeysDiffer(s, at.node, loc.node); }
    }
  }

  lemma JoinKeysDiffer(s: State, s': State, at: Loc, i: Node, m: Node)
    requires Sorted(s) && Fits(s, at, i) && Joined(s, s', at, i)
    ensures KeysDiffer(s', m, i) && KeysDiffer(s', i, m)
  {
    if m != i { assert NoneSkipped(s, at, m); }
  }

  lemma JoinSorted(s: State, s': State, at: Loc, i: Node)
    requires Sorted(s) && Fits(s, at, i) && Joined(s, s', at, i)
    ensures Sorted(s')
  {
    forall loc: Loc ensures LinkOk(s', loc) { JoinLinkOk(s, s', at, i, loc); }
    forall loc: Loc, m: Node ensures NoneSkipped(s', loc, m) {
      if m == i { JoinSkipsNew(s, s', at, i, loc); } else { JoinSkipsOld(s, s', at, i, loc, m); }
    }
    forall m: Node, n: Node ensures KeysDiffer(s', m, n) {
      if m == i { JoinKeysDiffer(s, s', at, i, n); }
      else if n == i { JoinKeysDiffer(s, s', at, i, m); }
      else { assert KeysDiffer(s, m, n); }
    }
  }

  /** Where a link CAS of t succeeds, the item belongs. */
  lemma LinkFits(s: State, t: Tid)
    requires ListInv(s) && s.local(t).pc.LinkCas? && Inserts(s.local(t).op)
    requires LinkAt(s, s.local(t).at) == Link(s.local(t).nxt, false)
    ensures Fits(s, s.local(t).at, s.local(t).op.item)
  {
    assert LocalOk(s, t);
    UnmarkedIsLive(s, t);
  }

  function Nodes(at: Loc): set<Node> { if at.NextOf? then {at.node} else {} }

  ghost predicate Unlocked(s: State, n: Node) {
    n < s.created && s.status(n).Linked? && !s.next(n).marked && s.marker(n).NoOne?
  }

  /** s after the link CAS of t. */
  function Put1(s: State, t: Tid): State
    requires Inserts(s.local(t).op)
  {
    var l := s.local(t);
    PutIn(SetLink(s, l.at, To(l.op.item)), l.op.item, l.seqNo)
  }

  lemma LinkNodes(s: State, t: Tid)
    requires ListInv(s) && s.local(t).pc.LinkCas? && Inserts(s.local(t).op)
    requires LinkAt(s, s.local(t).at) == Link(s.local(t).nxt, false)
    ensures var s' := Put1(s, t); Sorted(s') && Rely(s, s', t)
    ensures var s' := Put1(s, t);
      Unlocked(s', s.local(t).op.item) && (s.local(t).at.NextOf? ==> Unlocked(s', s.local(t).at.node))
  {
    var l := s.local(t);
    var s' := Put1(s, t);
    LinkFits(s, t);
    JoinSorted(s, s', l.at, l.op.item);
    assert LocalOk(s, t) && NodeOk(s, l.op.item) && (l.at.NextOf? ==> NodeOk(s, l.at.node));
  }

  lemma LinkKeeps(s: State, t: Tid, l': Local)
    requires ListInv(s) && s.local(t).pc.LinkCas? && Inserts(s.local(t).op)
    requires LinkAt(s, s.local(t).at) == Link(s.local(t).nxt, false)
    requires Knows(Put1(s, t), t, l') && l'.op == s.local(t).op && !l'.pc.Idle?
    ensures ListInv(UseSeq(Put1(s, t), t, l'))
  {
    LinkNodes(s, t);
    var s' := UseSeq(Put1(s, t), t, l');
    SameWalkSorted(Put1(s, t), s');
    var c := {s.local(t).op.item} + Nodes(s.local(t).at);
    forall n: Node ensures NodeRely(s, s', t, n) { assert NodeRely(s, Put1(s, t), t, n); }
    FewNodesKeep(s, s', t, c);
  }

  lemma LinkCasStep(s: State, t: Tid)
    requires ListInv(s) && s.local(t).pc.LinkCas? && Inserts(s.local(t).op)
    ensures ListInv(InsertAt(s, t))
  {
    assert LocalOk(s, t);
    var l := s.local(t);
    if LinkAt(s, l.at) != Link(l.nxt, false) {
      RunKeeps(s, t, Restart(l));
    } else {
      LinkKeeps(s, t, l.(pc := Return, res := if l.op.Insert? then Done else DoneOld(Null)));
    }
  }

  // ---------- unlinking a node ----------

  /** Node c, which at points to, is taken out. */
  ghost predicate Cut(s: State, s': State, at: Loc, c: Node) {
    && s'.key == s.key && !s'.status(c).Linked? && LinkAt(s', at).ptr == s.next(c).ptr
    && (forall n: Node {:trigger s'.status(n)} :: n != c ==> s'.status(n) == s.status(n))
    && (forall loc: Loc {:trigger LinkAt(s', loc)} :: loc != at ==> LinkAt(s', loc) == LinkAt(s, loc))
  }

  /** At most one place in the list points to a node. */
  lemma OnePlace(s: State, at: Loc, loc: Loc, c: Node)
    requires Sorted(s) && Live(s, at) && Live(s, loc) && LinkAt(s, at).ptr == To(c) && LinkAt(s, loc).ptr == To(c)
    ensures at == loc
  {
    assert LinkOk(s, at) && LinkOk(s, loc);
    if at.NextOf? { assert NoneSkipped(s, loc, at.node); }
    if loc.NextOf? { assert NoneSkipped(s, at, loc.node); }
    if at.NextOf? && loc.NextOf? { assert KeysDiffer(s, at.node, loc.node); }
  }

  lemma CutLinkOk(s: State, s': State, at: Loc, c: Node, loc: Loc)
    requires Sorted(s) && Live(s, at) && LinkAt(s, at).ptr == To(c) && Cut(s, s', at, c)
    ensures LinkOk(s', loc)
  {
    assert LinkOk(s, at) && LinkOk(s, NextOf(c)) && LinkOk(s, loc);
    if Live(s, loc) && LinkAt(s, loc).ptr == To(c) { OnePlace(s, at, loc, c); }
  }

  lemma CutSkips(s: State, s': State, at: Loc, c: Node, loc: Loc, m: Node)
    requires Sorted(s) && Live(s, at) && LinkAt(s, at).ptr == To(c) && Cut(s, s', at, c)
    ensures NoneSkipped(s', loc, m)
  {
    assert LinkOk(s, at) && NoneSkipped(s, at, m) && NoneSkipped(s, loc, m) && NoneSkipped(s, NextOf(c), m)
      && KeysDiffer(s, m, c);
  }

  lemma CutSorted(s: State, s': State, at: Loc, c: Node)
    requires Sorted(s) && Live(s, at) && LinkAt(s, at).ptr == To(c) && Cut(s, s', at, c)
    ensures Sorted(s')
  {
    forall loc: Loc ensures LinkOk(s', loc) { CutLinkOk(s, s', at, c, loc); }
    forall loc: Loc, m: Node ensures NoneSkipped(s', loc, m) { CutSkips(s, s', at, c, loc, m); }
    forall m: Node, n: Node ensures KeysDiffer(s', m, n) { assert KeysDiffer(s, m, n); }
  }

  /** s after the unlink CAS of t. */
  function Cut1(s: State, t: Tid): State {
    var l := s.local(t);
    SetStatus(SetLink(s, l.at, l.nxt), l.cur, Taken(t)).(marker := Put(s.marker, l.cur, NoOne))
  }

  lemma CutNodes(s: State, t: Tid)
    requires ListInv(s) && HasMark(s.local(t).pc) && LinkAt(s, s.local(t).at) == Link(To(s.local(t).cur), false)
    ensures var l, s' := s.local(t), Cut1(s, t);
      && Sorted(s') && Rely(s, s', t) && (l.at.NextOf? ==> Unlocked(s', l.at.node))
      && s'.next(l.cur) == Link(l.nxt, true) && l.at != NextOf(l.cur) && Live(s, l.at) && Above(s, l.at, l.cur)
      && l.cur < s.created
  {
    var l := s.local(t);
    UnmarkedIsLive(s, t);
    UnmarkSucceeds(s, t);
    CutSorted(s, Cut1(s, t), l.at, l.cur);
    assert LocalOk(s, t) && NodeOk(s, l.cur) && (l.at.NextOf? ==> NodeOk(s, l.at.node));
  }

  lemma CutKeeps(s: State, t: Tid, l': Local)
    requires ListInv(s) && HasMark(s.local(t).pc) && LinkAt(s, s.local(t).at) == Link(To(s.local(t).cur), false)
    requires Knows(Cut1(s, t), t, l') && TakesOut(l') && l'.op == s.local(t).op && l'.cur == s.local(t).cur
    ensures ListInv(UseSeq(Cut1(s, t), t, l'))
  {
    CutNodes(s, t);
    var s' := UseSeq(Cut1(s, t), t, l');
    SameWalkSorted(Cut1(s, t), s');
    forall n: Node ensures NodeRely(s, s', t, n) { assert NodeRely(s, Cut1(s, t), t, n); }
    FewNodesKeep(s, s', t, {s.local(t).cur} + Nodes(s.local(t).at));
  }

  lemma UnlinkStep(s: State, t: Tid)
    requires ListInv(s) && s.local(t).pc.Unlink?
    ensures ListInv(UnlinkCas(s, t))
  {
    assert LocalOk(s, t);
    var l := s.local(t);
    if LinkAt(s, l.at) != Link(To(l.cur), false) {
      RunKeeps(s, t, l.(pc := Unmark));
    } else {
      CutNodes(s, t);
      CutKeeps(s, t, if l.op.Remove? then l.(pc := TakeRef, res := DoneOld(To(l.cur)))
        else l.(pc := Retire, res := Done));
    }
  }

  // ---------- replacing a node ----------

  /** s after the replace CAS of t: its node out, its item in at the same place. */
  function Swap1(s: State, t: Tid): State
    requires s.local(t).op.SetValue?
  {
    var l := s.local(t);
    PutIn(SetStatus(SetLink(s, l.at, To(l.op.item)), l.cur, Taken(t)), l.op.item,
      l.seqNo).(marker := Put(s.marker, l.cur, NoOne))
  }

  lemma SwapSorted(s: State, t: Tid)
    requires ListInv(s) && s.local(t).pc.Replace? && LinkAt(s, s.local(t).at) == Link(To(s.local(t).cur), false)
    requires s.local(t).op.SetValue?
    ensures Sorted(Swap1(s, t))
  {
    var l := s.local(t);
    CutNodes(s, t);
    assert LocalOk(s, t) && NodeOk(s, l.op.item) && LinkOk(s, NextOf(l.cur));
    UnmarkSucceeds(s, t);
    JoinSorted(Cut1(s, t), Swap1(s, t), l.at, l.op.item);
  }

  lemma SwapNodes(s: State, t: Tid)
    requires ListInv(s) && s.local(t).pc.Replace? && LinkAt(s, s.local(t).at) == Link(To(s.local(t).cur), false)
    requires s.local(t).op.SetValue?
    ensures var l, s' := s.local(t), Swap1(s, t);
      && Rely(s, s', t) && (l.at.NextOf? ==> Unlocked(s', l.at.node)) && Unlocked(s', l.op.item)
      && s'.next(l.cur) == Link(l.nxt, true) && s'.status(l.cur) == Taken(t) && l.cur < s.created
         && s'.marker(l.cur).NoOne?
  {
    var l := s.local(t);
    UnmarkedIsLive(s, t);
    UnmarkSucceeds(s, t);
    assert LocalOk(s, t) && NodeOk(s, l.cur) && NodeOk(s, l.op.item) && (l.at.NextOf? ==> NodeOk(s, l.at.node));
  }

  lemma SwapKeeps(s: State, t: Tid, l': Local)
    requires ListInv(s) && s.local(t).pc.Replace? && LinkAt(s, s.local(t).at) == Link(To(s.local(t).cur), false)
    requires s.local(t).op.SetValue? && Knows(Swap1(s, t), t, l') && TakesOut(l') && l'.op == s.local(t).op
      && l'.cur == s.local(t).cur
    ensures ListInv(UseSeq(Swap1(s, t), t, l'))
  {
    SwapSorted(s, t);
    SwapNodes(s, t);
    var s' := UseSeq(Swap1(s, t), t, l');
    SameWalkSorted(Swap1(s, t), s');
    forall n: Node ensures NodeRely(s, s', t, n) { assert NodeRely(s, Swap1(s, t), t, n); }
    FewNodesKeep(s, s', t, {s.local(t).cur, s.local(t).op.item} + Nodes(s.local(t).at));
  }

  lemma ReplaceStep(s: State, t: Tid)
    requires ListInv(s) && s.local(t).pc.Replace? && s.local(t).op.SetValue?
    ensures ListInv(SetOver(s, t))
  {
    assert LocalOk(s, t);
    var l := s.local(t);
    if LinkAt(s, l.at) != Link(To(l.cur), false) {
      RunKeeps(s, t, l.(pc := Unmark));
    } else {
      SwapNodes(s, t);
      SwapKeeps(s, t, l.(pc := TakeRef, res := DoneOld(To(l.cur))));
    }
  }

  // ---------- the end of a call ----------

  lemma RetireStep(s: State, t: Tid, e: Env)
    requires ListInv(s) && s.local(t).pc.Retire?
    ensures ListInv(Step(s, t, e))
  {
    assert LocalOk(s, t);
    var l := s.local(t);
    var s' := Step(s, t, e);
    assert NodeOk(s, l.cur);
    SameWalkSorted(s, s');
    FewNodesKeep(s, s', t, {l.cur});
  }

  lemma GiveBackKeeps(s: State, t: Tid, l': Local)
    requires ListInv(s) && s.local(t).pc.Return? && Inserts(s.local(t).op) && Knows(s, t, l') && l'.pc.Idle?
    requires s.status(s.local(t).op.item) == Offered(t)
    ensures ListInv(SkipSeq(SetStatus(s, s.local(t).op.item, Loose), t, l'))
  {
    var i := s.local(t).op.item;
    var s' := SkipSeq(SetStatus(s, i, Loose), t, l');
    assert NodeOk(s, i);
    SameWalkSorted(s, s');
    FewNodesKeep(s, s', t, {i});
  }

  /** A call that returns owns nothing any more. */
  lemma OwnsNothing(s: State, t: Tid, l': Local)
    requires ListInv(s) && s.local(t).pc.Return? && Knows(s, t, l') && l'.pc.Idle?
    requires Inserts(s.local(t).op) ==> s.status(s.local(t).op.item) != Offered(t)
    ensures ListInv(Run(s, t, l')) && ListInv(SkipSeq(s, t, l'))
  {
    assert LocalOk(s, t);
    forall s' | s' == Run(s, t, l') || s' == SkipSeq(s, t, l') ensures ListInv(s') {
      SameSorted(s, s');
      LocalsKeep(s, s', t);
      forall n: Node ensures NodeOk(s', n) { assert NodeOk(s, n); }
    }
  }

  lemma ReturnStep(s: State, t: Tid, e: Env)
    requires ListInv(s) && s.local(t).pc.Return?
    ensures ListInv(Step(s, t, e))
  {
    assert LocalOk(s, t);
    var l := s.local(t);
    var l' := l.(pc := Idle, op := Nothing);
    if Inserts(l.op) && s.status(l.op.item) == Offered(t) { GiveBackKeeps(s, t, l'); } else { OwnsNothing(s, t, l'); }
  }

  lemma StoreStep(s: State, t: Tid, e: Env)
    requires ListInv(s) && Allowed(s, Move(t, e)) && (s.local(t).pc.Store? || s.local(t).pc.StoreOver?)
    ensures ListInv(Step(s, t, e))
  {
    assert LocalOk(s, t);
    StoreKeeps(s, t, if s.local(t).pc.Store? then LinkCas else Replace);
  }

  /** A step is one of the part of the machine that its call is in. */
  lemma StepIs(s: State, t: Tid, e: Env)
    ensures var l, s' := s.local(t), Step(s, t, e);
      && (Traversing(l.pc) ==> s' == Run(s, t, Traverse(s, l, e)))
      && (InserterAt(l.pc) && Inserts(l.op) ==> s' == InsertAt(s, t))
      && (l.pc.ReadNext? || l.pc.Mark? || l.pc.Unmark? ==> s' == Locking(s, t))
      && (l.pc.Unlink? ==> s' == UnlinkCas(s, t))
      && (OnlySetValue(l.pc) && l.op.SetValue? ==> s' == SetOver(s, t))
      && (l.pc.TakeRef? || l.pc.Retire? || l.pc.Return? ==> s' == Finish(s, t))
  {
    var l := s.local(t);
    if Traversing(l.pc) { assert Step(s, t, e) == Run(s, t, Traverse(s, l, e)); }
    else if InserterAt(l.pc) { if Inserts(l.op) { assert Step(s, t, e) == InsertAt(s, t); } }
    else if OnlySetValue(l.pc) { if l.op.SetValue? { assert Step(s, t, e) == SetOver(s, t); } }
    else if l.pc.Unlink? { assert Step(s, t, e) == UnlinkCas(s, t); }
    else if l.pc.ReadNext? || l.pc.Mark? || l.pc.Unmark? { assert Step(s, t, e) == Locking(s, t); }
    else if l.pc.TakeRef? || l.pc.Retire? || l.pc.Return? { assert Step(s, t, e) == Finish(s, t); }
  }

  lemma StepKeepsList(s: State, t: Tid, e: Env)
    requires ListInv(s) && Allowed(s, Move(t, e))
    ensures ListInv(Step(s, t, e))
  {
    assert LocalOk(s, t);
    StepIs(s, t, e);
    match s.local(t).pc
    case DrawFirst | DrawMarked | Redraw => DrawStep(s, t, e);
    case Read | Check => TraverseKeeps(s, t, e);
    case Store | StoreOver => StoreStep(s, t, e);
    case LinkCas => LinkCasStep(s, t);
    case Mark => MarkStep(s, t, e);
    case Unlink => UnlinkStep(s, t);
    case Unmark => UnmarkStep(s, t, e);
    case Skip | CheckSeq | DropSeq | ReadNext => OtherQuietStep(s, t, e);
    case UnmarkSame => UnmarkSameStep(s, t, e);
    case Replace => ReplaceStep(s, t);
    case TakeRef => TakeRefStep(s, t, e);
    case Retire => RetireStep(s, t, e);
    case Return => ReturnStep(s, t, e);
    case Idle => assert Step(s, t, e) == s;
  }

  // ---------- calls, new nodes, references ----------

  lemma BeginKeepsList(s: State, t: Tid, op: Op)
    requires ListInv(s) && Allowed(s, Begin(t, op))
    ensures ListInv(Do(s, Begin(t, op)))
  {
    assert LocalOk(s, t);
    var s' := Do(s, Begin(t, op));
    if Inserts(op) { assert NodeOk(s, op.item); }
    SameWalkSorted(s, s');
    FewNodesKeep(s, s', t, if Inserts(op) then {op.item} else {});
  }

  lemma CreateLocals(s: State, k: Key, t: Tid)
    requires ListInv(s)
    ensures LocalOk(Do(s, Create(k)), t)
  {
    assert LocalOk(s, t) && NodeOk(s, s.created);
    var l := s.local(t);
    if l.at.NextOf? { assert NodeOk(s, l.at.node); }
    if l.nxt.To? { assert NodeOk(s, l.nxt.node); }
    assert NodeOk(s, l.cur);
  }

  lemma CreateKeepsList(s: State, k: Key)
    requires ListInv(s)
    ensures ListInv(Do(s, Create(k)))
  {
    var s' := Do(s, Create(k));
    assert NodeOk(s, s.created);
    forall at: Loc ensures LinkOk(s', at) { assert LinkOk(s, at); }
    forall at: Loc, m: Node ensures NoneSkipped(s', at, m) { assert NoneSkipped(s, at, m) && LinkOk(s, at); }
    forall m: Node, n: Node ensures KeysDiffer(s', m, n) { assert KeysDiffer(s, m, n); }
    forall n: Node ensures NodeOk(s', n) { assert NodeOk(s, n); }
    forall t: Tid ensures LocalOk(s', t) { CreateLocals(s, k, t); }
  }

  lemma ReclaimKeepsList(s: State, n: Node)
    requires ListInv(s) && Allowed(s, Reclaim(n))
    ensures ListInv(Do(s, Reclaim(n)))
  {
    var s' := Do(s, Reclaim(n));
    SameWalkSorted(s, s');
    forall m: Node ensures NodeOk(s', m) { assert NodeOk(s, m); }
    forall t: Tid ensures LocalOk(s', t) { assert LocalOk(s, t) && !Protects(s.local(t), n); }
  }

  lemma ActionKeepsList(s: State, a: Action)
    requires ListInv(s) && Allowed(s, a)
    ensures ListInv(Do(s, a))
  {
    match a
    case Create(k) => CreateKeepsList(s, k);
    case Begin(t, op) => BeginKeepsList(s, t, op);
    case Move(t, e) => StepKeepsList(s, t, e);
    case Reclaim(n) => ReclaimKeepsList(s, n);
    case AddRef(n) => RefsKeepList(s, a);
    case DropRef(n) => RefsKeepList(s, a);
  }

  lemma RefsKeepList(s: State, a: Action)
    requires ListInv(s) && (a.AddRef? || a.DropRef?)
    ensures ListInv(Do(s, a))
  {
    SameSorted(s, Do(s, a));
    forall n: Node ensures NodeOk(Do(s, a), n) { assert NodeOk(s, n); }
    forall t: Tid ensures LocalOk(Do(s, a), t) { assert LocalOk(s, t); }
  }
}
