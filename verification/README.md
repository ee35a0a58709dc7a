# A verified model of clds

clds is a C library of concurrent data structures in which every shared access is an explicit interlocked operation.
This project models its data structures in Dafny and proves what they promise.

Two kinds of model are used.

* **Protocols that any number of threads run together** are state machines. One step is one interlocked access (or one
  plain store, or one pass of a loop over data that only the thread can reach), memory is sequentially consistent, and a
  run is any sequence of allowed actions, so every interleaving is covered. Memory is a total function from addresses to
  cells. Fields under the comment "history" record the past for the proofs; no access reads them.
  These are the lock-free set, the sorted list, the hazard pointers, the writer/snapshot lock and the queue, and, one
  lock section at a time, the concurrent puts of the cache.
* **Operations that run alone** are classes and methods over the source's fields and loops: the hash table, the LRU
  cache, the single-threaded hash set, a reclaim cycle and destroy. `get_count`, `get_all` and the snapshot are methods
  too, and run among the finds of other threads: each of their accesses finds the list as it is at some later moment.

| files | what they hold |
|---|---|
| `Memory`, `References` | stores to memory, reference counts along a list |
| `LockFreeSet`, `LockFreeSetSafety`, `LockFreeSetTheorems`, `LockFreeSetCalls` | the doubly linked set: machine and invariant, preservation, results for all runs, what each call has done when it returns |
| `SortedList` | the sorted list: machine and invariants |
| `SortedListSafety`, `SortedListAccounts` | every action keeps the list, the sequence numbers and the reference counts |
| `SortedListTheorems`, `SortedListVerdicts`, `SortedListCalls` | results for all runs; what a call met and took; linearization of each call |
| `WriteGate`, `LockedList` | the writer/snapshot lock, and the list under it |
| `HazardPointers`, `HazardPointersSafety`, `HazardPointersScan`, `HazardPointersEntries`, `HazardPointersTheorems`, `HazardPointersCalls` | hazard pointers: machine, records, scan, reclaim entries, results for all runs, what acquire, release and reclaim come to |
| `GuardedList`, `GuardedListSafety`, `GuardedListTheorems` | the list with its hazard pointers: both machines run together, and neither assumes anything of the other |
| `HazardPointersSweep` | a run in which a handed-over entry is reclaimed while its node is guarded |
| `StHashSet`, `HazardReclaim`, `HazardDestroy` | the hash set; a reclaim cycle and destroy, run alone; destroy after any run |
| `HashTableModel`, `HashTable`, `HashTableSnapshot` | the chain of bucket arrays as a map, its operations, its snapshot |
| `LruModel`, `LruRecency`, `LruCache` | the recency list and concurrent puts; its order is that of last use; the cache run alone |
| `MpscQueue`, `MpscQueueTheorems`, `MpscQueueCalls` | the queue: machine and invariant, first in first out, what each call has done when it returns |

## Assumptions

They are the `Allowed` predicates and the preconditions, and say what the library asks of its callers.

* Keys are totally ordered (here: integers) and an item keeps its key. Callbacks are uninterpreted.
* Sorted list: nodes are fresh; an item is given to one insert or set_value, while it is not in the list (set_value also
  takes the item that is in the list, which then stays there); a reference is released by one who has it. The list was
  created with a sequence number and a skipped-number callback. That a node is reclaimed only when no call protects it,
  which `SortedList` assumes of its surroundings, is derived in `GuardedListTheorems.RunIsBoth`, for every run in which
  each entry swept from the pending list was retired before its sweeper began to collect the hazards. That is so in every
  run in which no thread unregisters with entries on its reclaim list (`GuardedListTheorems.LeavesNoneIsEarly`), and
  `HazardPointersSweep.SweptWhileGuarded` shows that it cannot be dropped.
* Lock-free set: an item is removed by one caller, after its insert returned; it may be inserted again later.
* Hazard pointers: a node is retired once, after it was unlinked, and a hazard pointer is relied upon only once the node
  was seen in place after the pointer was published and before the node was retired; a thread releases its oldest
  hazard pointer first and unregisters when it holds none. `GuardedListTheorems.RunIsBoth` derives all of this for the
  calls of the sorted list: there a thread has only to make its calls while it is registered.
* Queue: one consumer; an item is given to one enqueue at a time, and may be used again once it was dequeued.
* Hash table and cache: a list always finds memory for its hazard pointers; growing a table, making a bucket's list,
  copying a value and allocating a snapshot may fail.

Where the code and its documentation differ, the code is followed. `clds_st_hash_set_insert` never answers
KEY_ALREADY_EXISTS, although devdoc/clds_st_hash_set_requirements.md says so: it does not look for the key.
`clds_hash_table_delete_key_value` looks for the item alone, so it deletes an item also through another key that leads to
the same bucket.
The retry of an eviction whose key is not found (SRS_LRU_CACHE_13_078) is never taken.

## Model

| member | source | states |
|---|---|---|
| LockFreeSetSafety.AccessKeeps | src/lock_free_set.c:83-702 | every interlocked access of insert and remove, by any thread, keeps the invariant: the links from head run through the items in the set in the order of their linking and skip none, and each lock has one owner |
| LockFreeSetSafety.BeginKeeps | src/lock_free_set.c:83-199 | beginning an insert or a remove keeps it |
| LockFreeSetSafety.MidPrevUpstream | src/lock_free_set.c:370-440 | the previous that a middle remove has locked is an item that cannot finish leaving before it |
| LockFreeSetSafety.NextPrevNeverNull | src/lock_free_set.c:628-690 | while a middle remove repairs its right neighbour, that neighbour's previous is never an unlocked NULL by another's doing |
| LockFreeSetTheorems.RunKeepsInv | src/lock_free_set.c:83-702 | the invariant holds in every state of every run |
| LockFreeSetTheorems.RemoveNeverFails | src/lock_free_set.c:235-247 | in every run no unlock CAS fails and no NULL or locked pointer is followed: the "Unexpected change of locked" branches are unreachable |
| LockFreeSetTheorems.LockHasOwner | src/lock_free_set.c:219-229 | a locked link of an item belongs to the thread that removes the item |
| LockFreeSetTheorems.LockedLinkIsFrozen | src/lock_free_set.c:381-391 | a locked link is changed only by the thread that locked it |
| LockFreeSetTheorems.NeighboursStay | src/lock_free_set.c:136-147 | a neighbour reached through a link of an item still being removed has not finished being removed |
| LockFreeSetTheorems.TouchedIsInside | src/lock_free_set.c:590-690 | no access goes to an item whose removal has returned |
| LockFreeSetTheorems.Walk | src/lock_free_set.c:105-164 | the walk from a linked item, lock bit cleared, ends, and visits exactly the items linked no later than it, newest first |
| LockFreeSetTheorems.WalkVisitsSet | src/lock_free_set.c:105-164 | from head it visits exactly the items of the set, each once |
| LockFreeSetTheorems.StepEffect | src/lock_free_set.c:112-128 | any action changes the walk only by adding the item in front, at the head CAS of insert, or taking out one item, at the unlink CAS of its remove |
| LockFreeSetCalls.InsertLinksOnce | src/lock_free_set.c:83-168 | an insert that returns, whatever other threads do in between, has made exactly one head CAS that links its item, so the item is in the set unless its remove has unlinked it since |
| LockFreeSetCalls.RemoveUnlinksOnce | src/lock_free_set.c:170-702 | a remove that returns has made exactly one CAS that unlinks its item |
| LockFreeSetTheorems.WalkAfterUnlink | src/lock_free_set.c:591-625 | the unlink CAS, on head or on the previous item's next, takes out exactly its item and keeps the others in order |
| LockFreeSetTheorems.QuietListIsMirrored | src/lock_free_set.c:105-164 | with no call in flight previous is the unlocked mirror of next, and the head has none |
| SortedListSafety.ActionKeepsList | src/clds_sorted_list.c:142-1742 | every step of every operation, and every creation, reference and reclaim, keeps the list: links lead from head through the linked nodes in increasing key order and skip none; a delete bit has one owner, and stays set on a node that is out |
| SortedListSafety.LinkFits | src/clds_sorted_list.c:801-822 | where a link CAS succeeds the item belongs: its location is in the list and the key lies strictly between |
| SortedListSafety.CutNodes | src/clds_sorted_list.c:262-340 | where an unlink CAS succeeds the location is in the list and points to the node, and the list without it is sorted and complete |
| SortedListSafety.SwapSorted | src/clds_sorted_list.c:1553-1600 | where a replace CAS succeeds the list with the new item in the old one's place is sorted and complete |
| SortedListSafety.OnePlace | src/clds_sorted_list.c:262-340 | at most one place in the list points to a node |
| SortedListSafety.UnmarkedIsLive | src/clds_sorted_list.c:205-219 | a link whose bit 0 is clear lies in the list and leads to a node of the list with a greater key |
| SortedListSafety.UnmarkSucceeds | src/clds_sorted_list.c:1515-1530 | giving a delete bit back always succeeds, and the node is still in the list: the "This should not happen" branches are unreachable |
| SortedListTheorems.RunKeepsInv | src/clds_sorted_list.c:142-1742 | list, number and reference invariants hold in every state of every run |
| SortedListTheorems.Walk | src/clds_sorted_list.c:153-385 | the walk from a node, bit 0 cleared, ends, in strictly increasing key order, and visits exactly the list's nodes from its key on |
| SortedListTheorems.WalkVisitsList | src/clds_sorted_list.c:153-385 | from head it visits exactly the nodes in the list |
| SortedListTheorems.MapEffect | src/clds_sorted_list.c:319-340 | the abstract map changes only at a link, unlink or replace CAS, and there at exactly one key, from what it was to what it becomes |
| SortedListTheorems.EffectIsRight | src/clds_sorted_list.c:801-822 | a link CAS finds its key free, an unlink or replace CAS finds its node in the list |
| SortedListTheorems.LockedNodeIsFrozen | src/clds_sorted_list.c:229-246 | while a thread holds a node's delete bit, no other changes its next or takes it out |
| SortedListTheorems.OutIsFrozen | src/clds_sorted_list.c:229-340 | a node that is out keeps its delete bit and its next as long as anyone may read it, and never comes back |
| SortedListTheorems.NoOwnerNoLock | src/clds_sorted_list.c:229-275 | when no call is between setting and giving back a delete bit, no node of the list has it set |
| SortedListTheorems.ErrorHasCause | src/clds_sorted_list.c:1513-1622 | a call ends in an error only for want of a hazard pointer or by its condition callback |
| SortedListTheorems.NumbersSplit | src/clds_sorted_list.c:249-256 | in every run the numbers drawn are start + 1 up to the counter, and each is in exactly one place: used once, skipped once, or held by an operation in flight |
| SortedListTheorems.HeldByOne | src/clds_sorted_list.c:758-768 | no two operations hold the same number |
| SortedListTheorems.QuietNumbersSplit | src/clds_sorted_list.c:1731-1738 | with no operation in flight every number drawn was used or skipped, once |
| SortedListTheorems.TakenOutLater | src/clds_sorted_list.c:294-303 | the number under which an item is taken out is greater than the one under which it was put in |
| SortedListTheorems.UsedAtEffect | src/clds_sorted_list.c:1492-1545 | a number counts as used only in the step in which its operation changes the list, or in which set_value of the item that is there renumbers it, with a greater number |
| SortedListTheorems.NumberOnlyGrows | src/clds_sorted_list.c:1492-1545 | the number of an item in the list only grows |
| SortedListTheorems.CountIsShares | src/clds_sorted_list.c:1907-1956 | in every run a node's count is one per outstanding handle, and one for the list until its reclaim runs |
| SortedListTheorems.ZeroIsFinal | src/clds_sorted_list.c:73-91 | no step raises a count from 0 |
| SortedListTheorems.CleanupOnce | src/clds_sorted_list.c:73-91 | the cleanup callback has run once if the count got to 0, and not before |
| SortedListTheorems.ValidatedIsLinked | src/clds_sorted_list.c:205-219 | a node that passes the check after its hazard pointer was published is in the list at that moment |
| SortedListTheorems.RetiredOnce | src/clds_sorted_list.c:268-307 | a node is given to the hazard pointers only by the call that unlinked it, once |
| SortedListAccounts.DrawnIsAbove | src/clds_sorted_list.c:249-256 | a number drawn while a delete bit is held is above the number that put the node in |
| SortedListAccounts.ActionKeepsNumbers | src/clds_sorted_list.c:249-335 | every action keeps the account of the numbers |
| SortedListAccounts.TakeRefCounts | src/clds_sorted_list.c:1204-1207 | find and remove take a reference only of a node whose count is not 0 |
| SortedListAccounts.ActionKeepsRefs | src/clds_sorted_list.c:534-553 | every action keeps the account of the references |
| SortedListVerdicts.CallStands | src/clds_sorted_list.c:1376-1470 | all through a call: set_value replaces, or keeps, an item only after its condition callback was asked about that item and said OK; it has answered CONDITION_NOT_MET exactly when the callback last said so, and a call has failed exactly when it got no hazard pointer or the callback failed |
| SortedListVerdicts.CallTakes | src/clds_sorted_list.c:1204-1207 | all through a call its own steps have raised the count of one node, by one, if the answer gives that node to the caller, and otherwise of none |
| SortedListCalls.GapIsAbsent | src/clds_sorted_list.c:1637-1652 | between a place in the list and the node it points to no key is in the list |
| SortedListCalls.TheirPassedStep | src/clds_sorted_list.c:162-185 | hindsight: when the node a traversal stands on is unlinked with NULL as its next, the key looked for was absent at that moment |
| SortedListCalls.MyAnswerStep | src/clds_sorted_list.c:1135-1155 | an answer that changes nothing is given where the list justifies it, or after a moment of the call where it did |
| SortedListCalls.WholeCall | src/clds_sorted_list.c:142-1742 | through a whole call, whatever other threads do in between, the changes it has made are those of its answer |
| SortedListCalls.CallActsOnce | src/clds_sorted_list.c:142-1742 | linearization: a call that returns without error acts on the map, as the operation, its answer and the verdict of its condition callback say, at one moment between call and return; its own steps change the map at most once, and not at all when it answers that nothing was done; it fails exactly for want of a hazard pointer or by its callback, answers CONDITION_NOT_MET exactly when the callback said so, and takes one reference of the node that it gives and of no other |
| GuardedListSafety.AccessHolds | src/clds_sorted_list.c:153-384 | after any access of any call, what that exit, restart or advance does with previous_hp and current_item_hp leaves the call a hazard pointer for each node that it may use next |
| GuardedListSafety.OldestReleased | src/clds_sorted_list.c:205-219 | releasing previous_hp, or current_item_hp when there is no previous one, releases the oldest hazard pointer of the thread |
| GuardedListSafety.PushGives | src/clds_hazard_pointers.c:655-680 | the record that acquire gives to a call is its newest and has the node that the call read |
| GuardedListSafety.ReclaimAllowed | src/clds_hazard_pointers.c:230-273 | the node whose reclaim function is called was retired by the list, and no call of any thread may use it |
| GuardedListSafety.MoveStays | src/clds_hazard_pointers.c:599-731 | no access of any thread changes a record that another call holds, and none of its own but the one being pushed |
| GuardedListSafety.ActionKeeps | src/clds_sorted_list.c:142-1742 | every access of any call to the list or to the hazard pointers keeps both machines and what ties them: each thread holds exactly the hazard pointers of its call, in the order of their taking, and they guard what the call may use |
| GuardedListTheorems.RunIsBoth | src/clds_sorted_list.c:142-1742 | every run of list and hazard pointers together is a run of each in which all that it assumes holds: reclaims of unprotected nodes only, oldest released first, validation before retirement, one retirement, none held at unregister |
| GuardedListTheorems.RunIsBothAlone | src/clds_hazard_pointers.c:565-585 | the same with no condition but that no thread unregisters with entries on its reclaim list |
| GuardedListTheorems.LeavesNoneIsEarly | src/clds_hazard_pointers.c:275-315 | in such a run nothing is ever pending or swept |
| GuardedListTheorems.ReclaimedIsUnused | src/clds_sorted_list.c:73-91 | in every run no node is reclaimed while a call of any thread may use it |
| GuardedListTheorems.ReleaseIsOldest | src/clds_sorted_list.c:374-384 | in every run, on every exit, restart and advance of every call, each hazard pointer released is the oldest of its thread |
| GuardedListTheorems.ValidatedIsNotRetired | src/clds_sorted_list.c:205-219 | in every run a node that passes the check after acquire is in the list and not retired, and the record has it |
| GuardedListTheorems.ReturnedHoldsNone | src/clds_sorted_list.c:162-203 | in every run a call that has returned, with an answer or an error, has no hazard pointer left |
| GuardedListTheorems.AtMostTwo | src/clds_sorted_list.c:153-191 | in every run a call holds two hazard pointers at most |
| GuardedListTheorems.TouchedIsAllocated | src/clds_sorted_list.c:188-234 | in every run no access of a call goes to a node that was freed |
| GuardedListTheorems.TakenOutIsHandedOver | src/clds_sorted_list.c:262-307 | in every run, once no call is under way, the nodes handed to clds_hazard_pointers_reclaim are exactly those that calls took out of the list |
| WriteGate.ActionKeeps | src/clds_sorted_list.c:93-140 | each access of begin, end, lock and unlock keeps the counters equal to the numbers of threads they count, and exclusion |
| WriteGate.NoWriterUnderLock | src/clds_hash_table.c:61-108 | in every run, while a locker has seen zero pending and not unlocked, no writer is between begin and end |
| WriteGate.LockIsSeen | src/clds_sorted_list.c:93-109 | while anyone holds the lock every writer backs off |
| WriteGate.PassesWhenFree | src/clds_sorted_list.c:93-133 | a writer gets through exactly when no thread holds the lock or waits for it, and a locker exactly when no writer is counted in |
| WriteGate.CountersReturn | src/clds_sorted_list.c:111-140 | with no thread inside both counters are zero again |
| LockedList.NoMarkUnderLock | src/clds_sorted_list.c:117-133 | under the lock no node of the list has its delete bit set |
| LockedList.FrozenRun | src/clds_sorted_list.c:117-133 | for as long as a locker holds the lock, over any run of other threads, head, members, keys and links stay the same |
| LockedList.PlainWalkIsExact | src/clds_sorted_list.c:1800-1807 | under the lock a walk that does not clear bit 0 visits exactly the items, in key order |
| LockedList.GetCount | src/clds_sorted_list.c:1770-1817 | get_count, each access at any later moment under the lock, answers NOT_LOCKED when nobody locked, and otherwise the number of items |
| LockedList.GetAll | src/clds_sorted_list.c:1819-1905 | get_all, among finds of other threads, fills the buffer with the items in key order and takes one reference of each on top of what the others do to the counts, or, if the buffer is too small, gives every reference back and clears it |
| LockedList.LaterIsStill | src/clds_sorted_list.c:1855-1877 | at any later moment under the lock the links lead through the same items, and the count of each is above 0 when get_all raises it |
| LockedList.OneRefEach | src/clds_sorted_list.c:1870-1877 | the references that get_all takes are one for each item in the list and none for others |
| References.ReleaseUndoes | src/clds_sorted_list.c:1880-1890 | releasing the nodes taken gives every count back |
| HazardPointersSafety.ActionKeepsRecs | src/clds_hazard_pointers.c:599-731 | every access of acquire and release, by any thread, keeps each thread's list of records ordered from newest to oldest and complete, and its free list apart from it |
| HazardPointersSafety.OldestIsLast | src/clds_hazard_pointers.c:699-722 | a record that is being released is the last of its list |
| HazardPointersScan.RecordStepOk | src/clds_hazard_pointers.c:192-215 | reading a record's next and then its node either finds the hazard or keeps it ahead of the scan |
| HazardPointersScan.StillReaches | src/clds_hazard_pointers.c:704-722 | what the scan can still reach it can reach after another thread's step, because only the oldest record is unlinked |
| HazardPointersScan.ActionKeepsScan | src/clds_hazard_pointers.c:182-227 | in every state, a node that was retired before a scan began and is still guarded is found, or its record is still ahead of the scan |
| HazardPointersTheorems.ReclaimIsSafe | src/clds_hazard_pointers.c:230-273 | in every run no entry of the calling thread's own reclaim list is reclaimed while any thread holds a validated hazard pointer for its node; nor is a swept entry that was retired before the scan began |
| HazardPointersSweep.SweptWhileGuarded | src/clds_hazard_pointers.c:182-278 | a run in which every caller keeps its promises and a swept entry, retired after the scan began, is reclaimed while its node is guarded |
| HazardPointersTheorems.OneOwner | src/clds_hazard_pointers.c:275-315 | in every run an entry is on one thread's list, or pending, or in one sweeper's chain, or done, at one place only, and the entry counts are the lengths of the lists |
| HazardPointersCalls.HandedInHasOneOwner | src/clds_hazard_pointers.c:748-769 | in every run a node handed to clds_hazard_pointers_reclaim, when there was memory for its entry, is on one reclaim list, or pending, or in one detached chain, or its reclaim function was called, and only one of these; a node that was not handed in is nowhere |
| HazardPointersCalls.HandInStartsCycle | src/clds_hazard_pointers.c:756-766 | a reclaim call puts its node in front of the thread's list and starts a cycle exactly when the list has then come to the threshold that was set last |
| HazardPointersCalls.SweepTakesAll | src/clds_hazard_pointers.c:275-278 | the sweep of a cycle detaches the whole pending list |
| HazardPointersCalls.CycleKeepsOnlyHazards | src/clds_hazard_pointers.c:168-333 | in every run a cycle ends early only when an allocation fails; otherwise an entry that it leaves on its list or puts back was named by a hazard pointer at some time since the cycle began |
| HazardPointersCalls.AcquireReturns | src/clds_hazard_pointers.c:599-684 | acquire, whatever other threads do, ends with one more hazard pointer of its thread, the newest, for its node, and all others as they were; it gives NULL only when the free list is empty and an allocation fails, and then changes none |
| HazardPointersCalls.ReleaseReturns | src/clds_hazard_pointers.c:686-731 | release ends with its record cleared and on the thread's free list, and all other hazard pointers as they were |
| HazardPointersTheorems.EntryMovesOn | src/clds_hazard_pointers.c:565-585 | an entry changes owner only at the push and the exchange, and once reclaimed is never reclaimed again |
| HazardPointersTheorems.ReleaseFindsRecord | src/clds_hazard_pointers.c:704-722 | the walk of release always comes to its record |
| HazardPointersTheorems.GoneHasNoEntries | src/clds_hazard_pointers.c:565-588 | a thread that unregistered leaves no entry behind and guards nothing |
| HazardPointersEntries.ActionKeepsEntries | src/clds_hazard_pointers.c:230-315 | every action keeps each entry with its one owner |
| StHashSet.HashSet.Insert | src/clds_st_hash_set.c:122-163 | insert adds exactly its key, or fails for NULL and for lack of memory and adds nothing |
| StHashSet.HashSet.Find | src/clds_st_hash_set.c:165-206 | find answers OK exactly for the keys inserted |
| HazardReclaim.Filter | src/clds_hazard_pointers.c:230-273 | the pass over a reclaim list reclaims exactly the nodes not in the set, in order, and keeps the others in order |
| HazardReclaim.Domain.Collect | src/clds_hazard_pointers.c:174-227 | the set is that of all hazards of active threads, and there is one exactly when every allocation succeeded |
| HazardReclaim.Domain.ReclaimCycle | src/clds_hazard_pointers.c:168-319 | a cycle reclaims exactly what is not guarded, of the own list and of the pending list, keeps the rest (the pending rest reversed), and does nothing without memory |
| HazardReclaim.CycleConserves | src/clds_hazard_pointers.c:230-315 | a cycle loses no entry and doubles none |
| HazardReclaim.Domain.Destroy | src/clds_hazard_pointers.c:454-495 | destroy leaves on a list what has a hazard, or all of it when its cycle has no memory, and reclaims every other entry once |
| HazardReclaim.Domain.NothingIsLost | src/clds_hazard_pointers.c:468-473 | it leaves nothing of a list exactly when the list was empty, or its cycle had memory and no entry has a hazard |
| HazardDestroy.QuietTimes | src/clds_hazard_pointers.c:565-585 | after any run, with no call under way, each node that the run handed to reclaim was reclaimed or waits on one list, once, and no other node |
| HazardDestroy.Destroy | src/clds_hazard_pointers.c:454-502 | after any run, with no call under way and no hazard pointer held, destroy with memory for its sets leaves nothing, and over the run and destroy the reclaim function was called once for every node that the run handed in, and for no other |
| HashTableModel.ZeroCountIsEmpty | src/clds_hash_table.c:576-580 | a level whose item count is zero holds no key, so that skipping it is sound |
| HashTableModel.ChangeKey | src/clds_hash_table.c:327-512 | changing what one bucket says of one key changes the map at that key only and keeps each key in one level, in its bucket, and the counts right |
| HashTableModel.NewLevel | src/clds_hash_table.c:157-176 | an empty level on top changes nothing of the map |
| HashTableModel.CountIsLive | src/clds_hash_table.c:151-153 | no level counts more items than the table holds |
| HashTable.Table.TopLevel | src/clds_hash_table.c:146-193 | an empty level of twice the size goes on top only when the top level counts as many items as it has buckets, which is no more than are live, and a failed allocation changes nothing; the top bucket count never exceeds the larger of the initial one and twice the peak of live items (Valid) |
| HashTable.Table.Insert | src/clds_hash_table.c:327-512 | insert is insert of a map, also without memory to grow: it refuses exactly the keys that are there, in any level, and fails exactly when a new key's bucket of the top level has no list and none can be made |
| HashTable.Table.Find | src/clds_hash_table.c:1029-1102 | find is lookup of a map, and takes one reference of the item it gives |
| HashTable.Table.Delete | src/clds_hash_table.c:533-625 | delete is removal from a map |
| HashTable.Table.Remove | src/clds_hash_table.c:722-815 | remove is removal from a map and gives the item |
| HashTable.Table.DeleteKeyValue | src/clds_hash_table.c:627-720 | delete_key_value removes the item exactly when it is in the table and the given key leads to the bucket of the item's own key in its level, as the own key does |
| HashTable.Table.Seek | src/clds_hash_table.c:1053-1095 | the search from the top level, past levels that count no items, finds the one level that has the key |
| HashTable.Table.SetBelow | src/clds_hash_table.c:874-932 | below the top level set_value finds the key where it is: with a condition that is OK it stores the item and gives the old one, with one that is not met, or fails, it says so and changes nothing; it goes on to the top exactly if no level below has the key |
| HashTable.Table.SetValue | src/clds_hash_table.c:817-1027 | set_value is update of a map: of a key that is there it stores the item and gives the old one when the condition is OK, answers CONDITION_NOT_MET when it is not met and ERROR when it fails, both without a change; a new key is stored, or fails exactly when its bucket of the top level has no list and none can be made |
| HashTableSnapshot.Snapshot | src/clds_hash_table.c:1104-1253 | a snapshot holds the items of all keys of all levels, each once, and takes one reference of each; otherwise it gives back what it took; it fails exactly when there are items and no memory, and is abandoned exactly if its token is cancelled one of the times it is asked, which it is at least once when there are items |
| HashTableSnapshot.LockedIsWalkable | src/clds_hash_table.c:1125-1193 | while a snapshot has the table's lock, its walk over each bucket's list goes through exactly the items of the bucket, whatever finds run beside it |
| HashTableSnapshot.CountItems | src/clds_hash_table.c:1127-1138 | the sum of the counts is the number of items |
| HashTableSnapshot.LeftIsEnough | src/clds_hash_table.c:1176-1212 | a bucket never has more items than there is room left in the buffer |
| HashTableSnapshot.CopyBucket | src/clds_hash_table.c:1190-1211 | the get_all of a bucket's list never overruns the buffer, and adds exactly the bucket's items, one reference each |
| LruModel.SizeIsBounded | src/lru_cache.c:165-264 | for any number of concurrent puts, gets and evictions, current_size is the sum of the stored sizes, fits in int64, and is at most the capacity and the sizes of puts that have linked and not ended their eviction; table keys and list entries agree, and no eviction ends in an error |
| LruModel.RoundKeeps | src/lru_cache.c:169-261 | a round above the capacity, among other threads, takes out one entry: the list is not empty, the entry is no larger than current_size, and the table has its key |
| LruModel.EvictionIsShortest | src/lru_cache.c:165-264 | eviction takes the shortest least recent prefix that restores the capacity |
| LruModel.NewestStays | src/lru_cache.c:300-302 | an entry no larger than the capacity survives its own eviction |
| LruModel.AgreesLinked | src/lru_cache.c:362-397 | after a put the table has exactly the keys of the list, each with the item of its entry |
| LruRecency.PutIsNewest | src/lru_cache.c:362-397 | a put makes its entry the most recent, in place of any of its key, and leaves the others in their order |
| LruRecency.GetIsNewest | src/lru_cache.c:457-464 | a get makes the entry of its key the most recent and leaves the others in their order |
| LruRecency.GetOutlastsOthers | src/lru_cache.c:165-264 | an eviction after a get takes every other entry before that of the get |
| LruRecency.ListIsByLastUse | src/lru_cache.c:362-464 | in every run of any number of threads the list is in the order of last use: the last put that stored, or get that found, of each key |
| LruRecency.EvictsLeastRecentlyUsed | src/lru_cache.c:172-230 | in every run a round of eviction above the capacity takes out, of list, table and size, the one entry that has not been used for the longest time |
| LruRecency.ActionDoes | src/lru_cache.c:277-555 | in every state a put that is not refused stores its entry, a get that finds renews its entry, an evict takes its key out, and a round within the capacity ends its put; otherwise nothing changes |
| LruCache.Cache.Link | src/lru_cache.c:320-402 | the locked section of put makes its entry the most recent in place of any of its key, or refuses a size that would overflow int64, and changes nothing when it fails |
| LruCache.Cache.EvictRound | src/lru_cache.c:172-260 | a round takes out the least recent entry, from list, table and size, and the table has it |
| LruCache.Cache.EvictInternal | src/lru_cache.c:165-264 | eviction ends, within the capacity, having called the callback for exactly the entries it took, the least recent first |
| LruCache.Cache.Put | src/lru_cache.c:277-419 | put alone refuses exactly a size that is not positive, above the capacity or above what int64 leaves, then fails exactly by its copy function or for want of a list in the table, and changes nothing; otherwise it leaves its entry most recent and the least recent prefix evicted |
| LruCache.PutEvictsShortest | src/lru_cache.c:395-413 | a successful put that runs alone evicts exactly the shortest least recent prefix, keeps its own entry and ends within the capacity |
| LruCache.Cache.Get | src/lru_cache.c:422-475 | get gives the value of the key, makes its entry the last of the list with the others in their order, or finds none and changes nothing, and gives back the reference it took |
| LruCache.Cache.Evict | src/lru_cache.c:477-555 | evict takes exactly the key's entry out of list, table and size and leaves the others in their order |
| MpscQueueTheorems.FirstInFirstOut | src/mpsc_lock_free_queue.c:56-170 | in every run what was dequeued, followed by what is in the queue, is what was enqueued, in the order of the enqueue CAS |
| MpscQueueTheorems.ActionEffect | src/mpsc_lock_free_queue.c:75-93 | the queue changes only by an append at an enqueue CAS or a pop of the oldest item |
| MpscQueueTheorems.ReverseKeeps | src/mpsc_lock_free_queue.c:140-149 | a pass of the in-place reversal moves nothing in the queue |
| MpscQueueTheorems.PublishPops | src/mpsc_lock_free_queue.c:151-165 | publishing the reversed list pops its oldest item |
| MpscQueueTheorems.AnswerIsRight | src/mpsc_lock_free_queue.c:192-274 | dequeue and peek give the oldest item, or NULL exactly when the queue is empty at that moment, and is_empty answers exactly |
| MpscQueueCalls.EnqueueAppendsOnce | src/mpsc_lock_free_queue.c:56-100 | an enqueue that returns, whatever other threads do, has appended its item exactly once, with its last step |
| MpscQueueCalls.CallAnswersOnce | src/mpsc_lock_free_queue.c:102-274 | a dequeue, peek or is_empty that returns answers for the queue as it was at one moment of the call; a dequeue that gives an item takes it, and nothing else, out at that moment, and no other call takes anything out |

## Left out

- Freeing of hazard pointer thread records by epoch, and the worker that unlinks inactive ones (src/clds_hazard_pointers.c:108-166, 321-392): the decrement to zero and the epoch CAS are separate steps; records are never freed here.
- HazardPointersTheorems.ReclaimIsSafe: claims nothing about a swept entry retired after the scan began, because the pending list is detached after the hazards were collected; HazardPointersSweep.SweptWhileGuarded is a run in which such an entry is reclaimed too early.
- GuardedList: models one list on one hazard pointers instance, and keeps each list access of a call in the order of the source with the calls of the hazard pointers between them.
- HazardPointers: registering a thread is one push, and addresses of nodes and entries are not reused, so a CAS on the pending list that meets a reused address is not modelled apart; it would have the same effect.
- LruCache.Cache.Put: does not model the allocation of its item failing, which the source does not check, nor the thread helper.
- HashTable.Table.Insert: does not model other threads; uniqueness of keys over levels under concurrent inserts does not follow from the source's accesses.
- HashTableModel: a bucket's list is the map it holds, which is what SortedListCalls.CallActsOnce proves of a list.
- SortedListCalls.CallActsOnce: does not model a list without sequence numbers, which takes the same steps without the counter, nor the wrap of the 64-bit counter; the callback for the number of a failed set_value is one step with the return.
- SortedListTheorems.TakenOutLater: claims no order between the number of an insert and that of an earlier delete of the same key; the insert draws its number before it traverses.
- WriteGate.NoWriterUnderLock: does not model the wrap of the 32-bit counters.
- MpscQueueTheorems.ReverseKeeps: a pass of the reversal loop is one step, because only the consumer can reach the items.
- Liveness and fairness of the retry and waiting loops.
- src/clds_singly_linked_list.c, an earlier relative of the sorted list.
- Destroy of lists, tables, sets and caches, purge of the lock-free set, NULL-argument checks, logging, thread helper, node macros.
