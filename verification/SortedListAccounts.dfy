/** Every action keeps the account of the sequence numbers and of the references. */
module SortedListAccounts {
  import opened Memory
  import opened SortedList
  import opened SortedListSafety

  ghost predicate Others(s: State, s': State, t: Tid) {
    && s'.start == s.start
    && (forall u: Tid :: u != t ==> s'.local(u) == s.local(u))
  }

  /** Nodes that come into the list get a number; the others keep theirs. */
  ghost predicate SamePuts(s: State, s': State) {
    && s'.putSeq == s.putSeq && (forall n: Node {:trigger s'.status(n)} :: s'.status(n).Linked? ==> s.status(n).Linked?)
  }

  /** Only node i got a new number, and only t holds its delete lock, if anyone does. */
  ghost predicate OnePut(s: State, s': State, t: Tid, i: Node) {
    && (forall n: Node {:trigger s'.putSeq(n)} :: n != i ==> s'.putSeq(n) == s.putSeq(n))
    && (forall n: Node {:trigger s'.status(n)} :: n != i && s'.status(n).Linked? ==> s.status(n).Linked?)
    && (s.marker(i).By? ==> s.marker(i).who == t)
  }

  ghost predicate SameLedger(s: State, s': State) {
    s'.seqNo == s.seqNo && s'.holder == s.holder && s'.used == s.used && s'.skipped == s.skipped
  }

  lemma QuietLedger(s: State, s': State, t: Tid)
    requires SeqInv(s) && Others(s, s', t) && SameLedger(s, s') && SamePuts(s, s') && SeqLocalOk(s', t)
    requires var l, l' := s.local(t), s'.local(t); l'.holds == l.holds && (l.holds ==> l'.seqNo == l.seqNo)
    ensures SeqInv(s')
  {
    assert SeqLocalOk(s, t);
    forall n: int ensures NumberOk(s', n) { assert NumberOk(s, n); }
    forall u: Tid ensures SeqLocalOk(s', u) { assert SeqLocalOk(s, u); }
    forall n: Node ensures PutSeqOk(s', n) { assert PutSeqOk(s, n); }
  }

  lemma DrawLedger(s: State, t: Tid, pc: Pc)
    requires SeqInv(s) && !s.local(t).holds && SeqLocalOk(Draw(s, t, pc), t)
    ensures SeqInv(Draw(s, t, pc))
  {
    var s' := Draw(s, t, pc);
    assert NumberOk(s, s.seqNo + 1) && NumberOk(s, s.seqNo);
    forall n: int ensures NumberOk(s', n) { assert NumberOk(s, n); }
    forall u: Tid ensures SeqLocalOk(s', u) { assert SeqLocalOk(s, u); }
    forall n: Node ensures PutSeqOk(s', n) { assert PutSeqOk(s, n); }
  }

  lemma SkipLedger(s: State, s': State, t: Tid)
    requires SeqInv(s) && Others(s, s', t) && SamePuts(s, s') && s.local(t).holds && !s'.local(t).holds
      && SeqLocalOk(s', t)
    requires s'.seqNo == s.seqNo && s'.holder == s.holder && s'.used == s.used
      && s'.skipped == s.skipped + multiset{s.local(t).seqNo}
    ensures SeqInv(s')
  {
    assert SeqLocalOk(s, t) && NumberOk(s, s.local(t).seqNo);
    forall n: int ensures NumberOk(s', n) { assert NumberOk(s, n); }
    forall u: Tid ensures SeqLocalOk(s', u) { assert SeqLocalOk(s, u); }
    forall n: Node ensures PutSeqOk(s', n) { assert PutSeqOk(s, n); }
  }

  lemma OtherPuts(s: State, s': State, t: Tid, i: Node, u: Tid)
    requires ListInv(s) && SeqInv(s) && Others(s, s', t) && OnePut(s, s', t, i) && s'.holder == s.holder && u != t
    ensures SeqLocalOk(s', u)
  {
    assert SeqLocalOk(s, u) && LocalOk(s, u);
  }

  lemma UseLedger(s: State, s': State, t: Tid, i: Node)
    requires ListInv(s) && SeqInv(s) && Others(s, s', t) && OnePut(s, s', t, i) && s.local(t).holds
      && !s'.local(t).holds && SeqLocalOk(s', t)
    requires s'.seqNo == s.seqNo && s'.holder == s.holder && s'.skipped == s.skipped
      && s'.used == s.used + multiset{s.local(t).seqNo}
    requires s'.status(i).Linked? ==>
      s'.putSeq(i) == s.local(t).seqNo || (s.status(i).Linked? && s'.putSeq(i) == s.putSeq(i))
    ensures SeqInv(s')
  {
    assert SeqLocalOk(s, t) && NumberOk(s, s.local(t).seqNo);
    forall n: int ensures NumberOk(s', n) { assert NumberOk(s, n); }
    forall u: Tid ensures SeqLocalOk(s', u) { if u != t { OtherPuts(s, s', t, i, u); } }
    forall n: Node ensures PutSeqOk(s', n) { assert PutSeqOk(s, n); }
  }

  // ---------- step by step ----------

  lemma WalkNumbers(s: State, t: Tid, e: Env)
    requires ListInv(s) && SeqInv(s) && Traversing(s.local(t).pc)
    ensures SeqInv(Step(s, t, e))
  {
    assert LocalOk(s, t) && SeqLocalOk(s, t);
    QuietLedger(s, Step(s, t, e), t);
  }

  lemma LockingNumbers(s: State, t: Tid, e: Env)
    requires ListInv(s) && SeqInv(s) && (s.local(t).pc.ReadNext? || s.local(t).pc.Mark? || s.local(t).pc.Unmark?)
    ensures SeqInv(Step(s, t, e))
  {
    assert LocalOk(s, t) && SeqLocalOk(s, t);
    if HasMark(s.local(t).pc) { UnmarkSucceeds(s, t); }
    QuietLedger(s, Step(s, t, e), t);
  }

  lemma StoreNumbers(s: State, t: Tid)
    requires ListInv(s) && SeqInv(s) && s.local(t).pc.Store? && Inserts(s.local(t).op)
    ensures SeqInv(InsertAt(s, t))
  {
    assert LocalOk(s, t) && SeqLocalOk(s, t);
    QuietLedger(s, InsertAt(s, t), t);
  }

  lemma StoreOverNumbers(s: State, t: Tid)
    requires ListInv(s) && SeqInv(s) && s.local(t).pc.StoreOver? && s.local(t).op.SetValue?
    ensures SeqInv(SetOver(s, t))
  {
    assert LocalOk(s, t) && SeqLocalOk(s, t);
    QuietLedger(s, SetOver(s, t), t);
  }

  lemma EndNumbers(s: State, t: Tid)
    requires ListInv(s) && SeqInv(s) && (s.local(t).pc.TakeRef? || s.local(t).pc.Retire?)
    ensures SeqInv(Finish(s, t))
  {
    assert LocalOk(s, t) && SeqLocalOk(s, t);
    QuietLedger(s, Finish(s, t), t);
  }

  /** The number drawn after the lock is set is above the number that put the node in. */
  lemma DrawnIsAbove(s: State, t: Tid)
    requires ListInv(s) && SeqInv(s) && HasMark(s.local(t).pc)
    ensures s.putSeq(s.local(t).cur) <= s.seqNo
    ensures s.local(t).holds ==> s.putSeq(s.local(t).cur) != s.local(t).seqNo
  {
    UnmarkSucceeds(s, t);
    assert PutSeqOk(s, s.local(t).cur) && NumberOk(s, s.putSeq(s.local(t).cur)) && SeqLocalOk(s, t);
  }

  lemma DrawNumbers(s: State, t: Tid, e: Env)
    requires ListInv(s) && SeqInv(s) && (s.local(t).pc.DrawFirst? || s.local(t).pc.DrawMarked? || s.local(t).pc.Redraw?)
    ensures SeqInv(Step(s, t, e))
  {
    assert LocalOk(s, t) && SeqLocalOk(s, t);
    if HasMark(s.local(t).pc) { DrawnIsAbove(s, t); }
    DrawLedger(s, t, if s.local(t).pc.DrawFirst? then Read else if s.local(t).pc.DrawMarked? then Unlink
      else AfterSeq(s.local(t)));
  }

  lemma CheckNumbers(s: State, t: Tid, e: Env)
    requires ListInv(s) && SeqInv(s) && s.local(t).pc.CheckSeq?
    ensures SeqInv(Step(s, t, e))
  {
    assert LocalOk(s, t) && SeqLocalOk(s, t);
    DrawnIsAbove(s, t);
    QuietLedger(s, Step(s, t, e), t);
  }

  lemma SkipNumbers(s: State, t: Tid, e: Env)
    requires ListInv(s) && SeqInv(s) && (s.local(t).pc.Skip? || s.local(t).pc.DropSeq?)
    ensures SeqInv(Step(s, t, e))
  {
    assert LocalOk(s, t) && SeqLocalOk(s, t);
    SkipLedger(s, Step(s, t, e), t);
  }

  lemma ReturnNumbers(s: State, t: Tid, e: Env)
    requires ListInv(s) && SeqInv(s) && s.local(t).pc.Return?
    ensures SeqInv(Step(s, t, e))
  {
    assert LocalOk(s, t) && SeqLocalOk(s, t);
    if s.local(t).holds { SkipLedger(s, Step(s, t, e), t); } else { QuietLedger(s, Step(s, t, e), t); }
  }

  lemma LinkNumbers(s: State, t: Tid)
    requires ListInv(s) && SeqInv(s) && s.local(t).pc.LinkCas? && Inserts(s.local(t).op)
    ensures SeqInv(InsertAt(s, t))
  {
    assert LocalOk(s, t) && SeqLocalOk(s, t);
    var l := s.local(t);
    if LinkAt(s, l.at) != Link(l.nxt, false) {
      QuietLedger(s, InsertAt(s, t), t);
    } else {
      assert NodeOk(s, l.op.item);
      UseLedger(s, InsertAt(s, t), t, l.op.item);
    }
  }

  lemma UnlinkNumbers(s: State, t: Tid, e: Env)
    requires ListInv(s) && SeqInv(s) && s.local(t).pc.Unlink?
    ensures SeqInv(Step(s, t, e))
  {
    assert LocalOk(s, t) && SeqLocalOk(s, t);
    var l := s.local(t);
    if LinkAt(s, l.at) != Link(To(l.cur), false) {
      QuietLedger(s, Step(s, t, e), t);
    } else {
      UseLedger(s, Step(s, t, e), t, l.cur);
    }
  }

  lemma SameItemNumbers(s: State, t: Tid, e: Env)
    requires ListInv(s) && SeqInv(s) && s.local(t).pc.UnmarkSame?
    ensures SeqInv(Step(s, t, e))
  {
    assert LocalOk(s, t) && SeqLocalOk(s, t);
    UnmarkSucceeds(s, t);
    UseLedger(s, Step(s, t, e), t, s.local(t).cur);
  }

  lemma MissedReplaceNumbers(s: State, t: Tid)
    requires ListInv(s) && SeqInv(s) && s.local(t).pc.Replace? && s.local(t).op.SetValue?
    requires LinkAt(s, s.local(t).at) != Link(To(s.local(t).cur), false)
    ensures SeqInv(SetOver(s, t))
  {
    assert LocalOk(s, t) && SeqLocalOk(s, t);
    QuietLedger(s, SetOver(s, t), t);
  }

  /** A replace CAS that succeeds uses its number for the item it puts in. */
  lemma ReplaceUses(s: State, t: Tid)
    requires ListInv(s) && SeqInv(s) && s.local(t).pc.Replace? && s.local(t).op.SetValue?
    requires LinkAt(s, s.local(t).at) == Link(To(s.local(t).cur), false)
    ensures var s', i := SetOver(s, t), s.local(t).op.item;
      && Others(s, s', t) && OnePut(s, s', t, i) && s.local(t).holds && SeqLocalOk(s', t) && !s'.local(t).holds
      && s'.seqNo == s.seqNo && s'.holder == s.holder && s'.skipped == s.skipped
      && s'.used == s.used + multiset{s.local(t).seqNo} && s'.putSeq(i) == s.local(t).seqNo
  {
    var l := s.local(t);
    assert LocalOk(s, t) && SeqLocalOk(s, t) && NodeOk(s, l.op.item);
    assert SetOver(s, t).local(t) == l.(pc := TakeRef, res := DoneOld(To(l.cur)), holds := false);
  }

  lemma ReplaceNumbers(s: State, t: Tid)
    requires ListInv(s) && SeqInv(s) && s.local(t).pc.Replace? && s.local(t).op.SetValue?
    ensures SeqInv(SetOver(s, t))
  {
    if LinkAt(s, s.local(t).at) != Link(To(s.local(t).cur), false) {
      MissedReplaceNumbers(s, t);
    } else {
      ReplaceUses(s, t);
      UseLedger(s, SetOver(s, t), t, s.local(t).op.item);
    }
  }

  lemma StepKeepsNumbers(s: State, t: Tid, e: Env)
    requires ListInv(s) && SeqInv(s)
    ensures SeqInv(Step(s, t, e))
  {
    assert LocalOk(s, t);
    StepIs(s, t, e);
    match s.local(t).pc
    case Read | Check => WalkNumbers(s, t, e);
    case ReadNext | Mark | Unmark => LockingNumbers(s, t, e);
    case Store => StoreNumbers(s, t);
    case StoreOver => StoreOverNumbers(s, t);
    case TakeRef | Retire => EndNumbers(s, t);
    case DrawFirst | DrawMarked | Redraw => DrawNumbers(s, t, e);
    case CheckSeq => CheckNumbers(s, t, e);
    case Skip | DropSeq => SkipNumbers(s, t, e);
    case Return => ReturnNumbers(s, t, e);
    case LinkCas => LinkNumbers(s, t);
    case Unlink => UnlinkNumbers(s, t, e);
    case UnmarkSame => SameItemNumbers(s, t, e);
    case Replace => ReplaceNumbers(s, t);
    case Idle => assert Step(s, t, e) == s;
  }

  lemma BeginKeepsNumbers(s: State, t: Tid, op: Op)
    requires ListInv(s) && SeqInv(s) && Allowed(s, Begin(t, op))
    ensures SeqInv(Do(s, Begin(t, op)))
  {
    assert LocalOk(s, t) && SeqLocalOk(s, t);
    QuietLedger(s, Do(s, Begin(t, op)), t);
  }

  lemma ActionKeepsNumbers(s: State, a: Action)
    requires ListInv(s) && SeqInv(s) && Allowed(s, a)
    ensures SeqInv(Do(s, a))
  {
    match a
    case Begin(t, op) => BeginKeepsNumbers(s, t, op);
    case Move(t, e) => StepKeepsNumbers(s, t, e);
    case _ =>
      assert SeqLocalOk(s, 0);
      QuietLedger(s, Do(s, a), 0);
  }

  // ---------- references ----------

  /** No count of n changes, and the list gives up no reference of it. */
  ghost predicate SameCounts(s: State, s': State, n: Node) {
    && s'.refs(n) == s.refs(n) && s'.handles(n) == s.handles(n) && s'.cleanups(n) == s.cleanups(n)
    && WasLinked(s', n) == WasLinked(s, n) && s'.status(n).Unused? == s.status(n).Unused?
    && (s'.status(n).Offered? ==> s.status(n).Offered? || s.handles(n) > 0)
  }

  lemma SameRefs(s: State, s': State)
    requires RefInv(s) && forall n: Node :: SameCounts(s, s', n)
    ensures RefInv(s')
  {
    forall n: Node ensures RefsOk(s', n) { assert RefsOk(s, n) && SameCounts(s, s', n); }
  }

  /** The caller's reference of i becomes the list's. */
  lemma HandOverRefs(s: State, s': State, i: Node)
    requires RefInv(s) && (forall n: Node :: n != i ==> SameCounts(s, s', n))
    requires s'.refs(i) == s.refs(i) && s'.cleanups(i) == s.cleanups(i) && s.status(i).Offered? && s'.status(i).Linked?
    requires s'.handles(i) == s.handles(i) - 1
    ensures RefInv(s')
  {
    forall n: Node ensures RefsOk(s', n) { assert RefsOk(s, n) && (n != i ==> SameCounts(s, s', n)); }
  }

  lemma TakeRefCounts(s: State, t: Tid, e: Env)
    requires ListInv(s) && RefInv(s) && s.local(t).pc.TakeRef?
    ensures s.refs(s.local(t).cur) > 0 && RefInv(Step(s, t, e))
  {
    assert LocalOk(s, t) && RefsOk(s, s.local(t).cur);
    forall n: Node ensures RefsOk(Step(s, t, e), n) { assert RefsOk(s, n); }
  }

  lemma LinkCounts(s: State, t: Tid, e: Env)
    requires ListInv(s) && RefInv(s) && s.local(t).pc.LinkCas?
    ensures RefInv(Step(s, t, e))
  {
    assert LocalOk(s, t);
    var l := s.local(t);
    if LinkAt(s, l.at) == Link(l.nxt, false) {
      HandOverRefs(s, Step(s, t, e), l.op.item);
    } else {
      SameRefs(s, Step(s, t, e));
    }
  }

  lemma UnlinkCounts(s: State, t: Tid, e: Env)
    requires ListInv(s) && RefInv(s) && s.local(t).pc.Unlink?
    ensures RefInv(Step(s, t, e))
  {
    UnmarkSucceeds(s, t);
    SameRefs(s, Step(s, t, e));
  }

  lemma ReplaceCounts(s: State, t: Tid, e: Env)
    requires ListInv(s) && RefInv(s) && s.local(t).pc.Replace?
    ensures RefInv(Step(s, t, e))
  {
    assert LocalOk(s, t);
    UnmarkSucceeds(s, t);
    var l := s.local(t);
    if LinkAt(s, l.at) == Link(To(l.cur), false) {
      HandOverRefs(s, Step(s, t, e), l.op.item);
    } else {
      SameRefs(s, Step(s, t, e));
    }
  }

  lemma EndCounts(s: State, t: Tid, e: Env)
    requires ListInv(s) && RefInv(s) && (s.local(t).pc.Retire? || s.local(t).pc.Return?)
    ensures RefInv(Step(s, t, e))
  {
    assert LocalOk(s, t);
    SameRefs(s, Step(s, t, e));
  }

  lemma OtherCounts(s: State, t: Tid, e: Env)
    requires RefInv(s) && var pc := s.local(t).pc;
      !(pc.TakeRef? || pc.LinkCas? || pc.Replace? || pc.Unlink? || pc.Retire? || pc.Return?)
    ensures RefInv(Step(s, t, e))
  {
    var s' := Step(s, t, e);
    assert s'.status == s.status && s'.refs == s.refs && s'.handles == s.handles && s'.cleanups == s.cleanups;
    SameRefs(s, s');
  }

  lemma ActionKeepsRefs(s: State, a: Action)
    requires ListInv(s) && RefInv(s) && Allowed(s, a)
    ensures RefInv(Do(s, a))
  {
    match a
    case Move(t, e) =>
      if s.local(t).pc.TakeRef? { TakeRefCounts(s, t, e); }
      else if s.local(t).pc.LinkCas? { LinkCounts(s, t, e); }
      else if s.local(t).pc.Unlink? { UnlinkCounts(s, t, e); }
      else if s.local(t).pc.Replace? { ReplaceCounts(s, t, e); }
      else if s.local(t).pc.Retire? || s.local(t).pc.Return? { EndCounts(s, t, e); }
      else { OtherCounts(s, t, e); }
    case Begin(t, op) => SameRefs(s, Do(s, a));
    case Create(k) =>
      assert NodeOk(s, s.created);
      forall n: Node ensures RefsOk(Do(s, a), n) { assert RefsOk(s, n); }
    case _ => forall n: Node ensures RefsOk(Do(s, a), n) { assert RefsOk(s, n) && NodeOk(s, n); }
  }
}
