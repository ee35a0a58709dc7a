/** The counted lock between writers and snapshots of src/clds_sorted_list.c:93-140 and src/clds_hash_table.c:61-108, as
    a state machine over single interlocked accesses. Waiting on an address may end at any time. */
module WriteGate {
  import opened Memory

  datatype Pc =
    | Out
    | Raised       // counted itself in, has not read the lock counter yet
    | BackingOff   // read a lock counter that is not zero
    | Writing      // between begin and end of a write operation
    | Waiting      // raised the lock counter, has not seen zero writers yet
    | Exclusive    // saw zero pending writers, has not unlocked yet

  datatype State = State(
    pending: int,        // pending_write_operations
    locked: int,         // locked_for_write
    pc: Tid -> Pc,
    // history: the threads that the counters count
    writers: set<Tid>,
    lockers: set<Tid>)

  datatype Action =
    | Begin(t: Tid)          // interlocked_increment of the pending counter
    | ReadLock(t: Tid)       // the read of the lock counter, and going on or not
    | BackOff(t: Tid)        // interlocked_decrement of the pending counter, and again
    | End(t: Tid)
    | Lock(t: Tid)           // interlocked_increment of the lock counter
    | ReadPending(t: Tid)    // the read of the pending counter, repeated until it is zero
    | Unlock(t: Tid)

  function Go(s: State, t: Tid, pc: Pc): State { s.(pc := Put(s.pc, t, pc)) }

  function Do(s: State, a: Action): State {
    match a
    case Begin(t) => Go(s, t, Raised).(pending := s.pending + 1, writers := s.writers + {t})
    case ReadLock(t) => Go(s, t, if s.locked != 0 then BackingOff else Writing)
    case BackOff(t) => Go(s, t, Out).(pending := s.pending - 1, writers := s.writers - {t})
    case End(t) => Go(s, t, Out).(pending := s.pending - 1, writers := s.writers - {t})
    case Lock(t) => Go(s, t, Waiting).(locked := s.locked + 1, lockers := s.lockers + {t})
    case ReadPending(t) => if s.pending != 0 then s else Go(s, t, Exclusive)
    case Unlock(t) => Go(s, t, Out).(locked := s.locked - 1, lockers := s.lockers - {t})
  }

  /** A thread takes the steps of a write operation, or of a lock and an unlock, in order. */
  predicate Allowed(s: State, a: Action) {
    match a
    case Begin(t) => s.pc(t).Out?
    case ReadLock(t) => s.pc(t).Raised?
    case BackOff(t) => s.pc(t).BackingOff?
    case End(t) => s.pc(t).Writing?
    case Lock(t) => s.pc(t).Out?
    case ReadPending(t) => s.pc(t).Waiting?
    case Unlock(t) => s.pc(t).Exclusive?
  }

  ghost predicate Init(s: State) {
    s.pending == 0 && s.locked == 0 && s.writers == {} && s.lockers == {} && forall t: Tid :: s.pc(t).Out?
  }

  predicate Counted(pc: Pc) { pc.Raised? || pc.BackingOff? || pc.Writing? }
  predicate Locks(pc: Pc) { pc.Waiting? || pc.Exclusive? }

  ghost predicate ThreadOk(s: State, t: Tid) {
    (t in s.writers <==> Counted(s.pc(t))) && (t in s.lockers <==> Locks(s.pc(t)))
  }

  ghost predicate Excluded(s: State, locker: Tid, writer: Tid) { s.pc(locker).Exclusive? ==> !s.pc(writer).Writing? }

  ghost predicate Inv(s: State) {
    && s.pending == |s.writers| && s.locked == |s.lockers|
    && (forall t: Tid :: ThreadOk(s, t))
    && (forall l: Tid, w: Tid :: Excluded(s, l, w))
  }

  lemma CountersKeep(s: State, a: Action)
    requires s.pending == |s.writers| && s.locked == |s.lockers| && ThreadOk(s, a.t) && Allowed(s, a)
    ensures Do(s, a).pending == |Do(s, a).writers| && Do(s, a).locked == |Do(s, a).lockers|
  {
  }

  lemma ThreadsKeep(s: State, a: Action, t: Tid)
    requires ThreadOk(s, t) && Allowed(s, a)
    ensures ThreadOk(Do(s, a), t)
  {
  }

  /** A writer gets through only when it sees no locker, and a locker only when it sees no writer counted in. */
  lemma ExclusionKeeps(s: State, a: Action, l: Tid, w: Tid)
    requires s.pending == |s.writers| && s.locked == |s.lockers| && ThreadOk(s, l) && ThreadOk(s, w)
      && Excluded(s, l, w) && Allowed(s, a)
    ensures Excluded(Do(s, a), l, w)
  {
    assert s.pending == 0 ==> s.writers == {};
    assert s.locked == 0 ==> s.lockers == {};
  }

  lemma ActionKeeps(s: State, a: Action)
    requires Inv(s) && Allowed(s, a)
    ensures Inv(Do(s, a))
  {
    CountersKeep(s, a);
    forall t: Tid ensures ThreadOk(Do(s, a), t) { ThreadsKeep(s, a, t); }
    forall l: Tid, w: Tid ensures Excluded(Do(s, a), l, w) { ExclusionKeeps(s, a, l, w); }
  }

  function After(s: State, actions: seq<Action>): State {
    if actions == [] then s else Do(After(s, actions[..|actions| - 1]), actions[|actions| - 1])
  }

  ghost predicate AllAllowed(s: State, actions: seq<Action>) {
    forall k :: 0 <= k < |actions| ==> Allowed(After(s, actions[..k]), actions[k])
  }

  lemma {:induction false} RunKeepsInv(s: State, actions: seq<Action>)
    requires Inv(s) && AllAllowed(s, actions)
    ensures Inv(After(s, actions))
  {
    if actions != [] {
      var n := |actions| - 1;
      assert forall k :: 0 <= k < n ==> actions[..n][..k] == actions[..k];
      RunKeepsInv(s, actions[..n]);
      ActionKeeps(After(s, actions[..n]), actions[n]);
    }
  }

  /** Exclusion, for any number of writers and lockers: while a locker has seen zero pending writers and has not
      unlocked, no thread is between begin and end of a write operation. */
  lemma NoWriterUnderLock(s: State, actions: seq<Action>, l: Tid, w: Tid)
    requires Init(s) && AllAllowed(s, actions) && After(s, actions).pc(l).Exclusive?
    ensures !After(s, actions).pc(w).Writing?
  {
    assert Inv(s) by { assert forall t: Tid :: ThreadOk(s, t); }
    RunKeepsInv(s, actions);
    assert Excluded(After(s, actions), l, w);
  }

  /** While a locker has not unlocked, the lock counter is not zero, and no writer gets through. */
  lemma LockIsSeen(s: State, l: Tid)
    requires Inv(s) && Locks(s.pc(l))
    ensures s.locked > 0
    ensures forall w: Tid :: Allowed(s, ReadLock(w)) ==> Do(s, ReadLock(w)).pc(w).BackingOff?
  {
    assert ThreadOk(s, l);
  }

  /** With no thread inside, both counters are back at zero. */
  lemma CountersReturn(s: State)
    requires Inv(s) && forall t: Tid :: s.pc(t).Out?
    ensures s.pending == 0 && s.locked == 0
  {
    forall t: Tid ensures t !in s.writers && t !in s.lockers { assert ThreadOk(s, t); }
    assert s.writers == {} && s.lockers == {};
  }

  /** Nothing else holds anybody up: a writer gets through exactly when no thread locks or waits to, and a locker
      exactly when no writer is counted in. */
  lemma PassesWhenFree(s: State, t: Tid)
    requires Inv(s)
    ensures Allowed(s, ReadLock(t)) ==>
      (Do(s, ReadLock(t)).pc(t).Writing? <==> forall l: Tid :: !Locks(s.pc(l)))
    ensures Allowed(s, ReadPending(t)) ==>
      (Do(s, ReadPending(t)).pc(t).Exclusive? <==> forall w: Tid :: !Counted(s.pc(w)))
  {
    if l: Tid :| Locks(s.pc(l)) { assert ThreadOk(s, l); }
    if w: Tid :| Counted(s.pc(w)) { assert ThreadOk(s, w); }
    forall u: Tid ensures u in s.lockers ==> Locks(s.pc(u)) { assert ThreadOk(s, u); }
    forall u: Tid ensures u in s.writers ==> Counted(s.pc(u)) { assert ThreadOk(s, u); }
    assert s.locked != 0 ==> s.lockers != {};
    assert s.pending != 0 ==> s.writers != {};
  }
}
