/** The queue of src/mpsc_lock_free_queue.c, for any number of producers and one consumer, as a state machine: one step
    is one access to a shared head, or one pass of the reversal loop over items that only the consumer can reach. */
module MpscQueue {
  import opened Memory

  type Item = nat

  datatype Ptr = Null | To(item: Item)

  datatype EnqPc = EnqIdle | ReadHead | SetNext | CasHead
  datatype Producer = Producer(pc: EnqPc, item: Item, head: Ptr)

  datatype Call = Dequeue | Peek | IsEmpty
  datatype DeqPc = DeqIdle | ReadDequeueHead | Advance | Grab | Reverse | Publish | ReadEnqueueHead | Return
  datatype Answer = NoAnswer | Got(item: Item) | GotNull | Empty(yes: bool)
  datatype Consumer = Consumer(pc: DeqPc, call: Call, cur: Ptr, newHead: Ptr, answer: Answer)

  /** Where an item is. No access reads it. */
  datatype Place = Free | Claimed(who: Tid) | InDequeueList | Unreversed | Reversed | InEnqueueList

  datatype State = State(
    dequeueHead: Ptr,
    enqueueHead: Ptr,
    next: Item -> Ptr,
    producer: Tid -> Producer,
    consumer: Consumer,
    // history: the four lists, newest first where they are stacks, and what went in and came out
    d: seq<Item>, u: seq<Item>, r: seq<Item>, e: seq<Item>,
    place: Item -> Place,
    enqueued: seq<Item>,
    dequeued: seq<Item>)

  datatype Action = BeginEnqueue(t: Tid, item: Item) | Enqueue(t: Tid) | BeginCall(call: Call) | Consume

  function Turned(q: seq<Item>): seq<Item> { if q == [] then [] else Turned(q[1..]) + [q[0]] }

  /** The items in the queue, the oldest first. */
  function Queue(s: State): seq<Item> { s.d + (Turned(s.u) + (s.r + Turned(s.e))) }

  function EnqueueStep(s: State, t: Tid): State {
    var l := s.producer(t);
    match l.pc
    case ReadHead => s.(producer := Put(s.producer, t, l.(pc := SetNext, head := s.enqueueHead)))
    case SetNext => s.(next := Put(s.next, l.item, l.head), producer := Put(s.producer, t, l.(pc := CasHead)))
    case CasHead =>
      if s.enqueueHead != l.head then s.(producer := Put(s.producer, t, l.(pc := ReadHead)))
      else s.(enqueueHead := To(l.item), producer := Put(s.producer, t, l.(pc := EnqIdle)),
              e := [l.item] + s.e, place := Put(s.place, l.item, InEnqueueList), enqueued := s.enqueued + [l.item])
    case EnqIdle => s
  }

  function Answered(s: State, a: Answer): State { s.(consumer := s.consumer.(pc := Return, answer := a)) }

  /** The first item x of the dequeue list, or of the reversed list, goes to the caller; rest stays. */
  function Taken(s: State, x: Item, rest: seq<Item>): State {
    Answered(s, Got(x)).(dequeueHead := s.next(x), d := rest, r := [], dequeued := s.dequeued + [x],
                         place := (i: Item) => if i == x then Free else if i in s.r then InDequeueList else s.place(i))
  }

  function ConsumeStep(s: State): State {
    var l := s.consumer;
    match l.pc
    case ReadDequeueHead =>
      if s.dequeueHead.To? then
        match l.call
        case Dequeue => s.(consumer := l.(pc := Advance, cur := s.dequeueHead))
        case Peek => Answered(s, Got(s.dequeueHead.item))
        case IsEmpty => Answered(s, Empty(false))
      else s.(consumer := l.(pc := if l.call.IsEmpty? then ReadEnqueueHead else Grab))
    case Advance => if l.cur.To? then Taken(s, l.cur.item, if s.d == [] then [] else s.d[1..]) else s
    case Grab =>
      if s.enqueueHead.Null? then Answered(s, GotNull)
      else s.(enqueueHead := Null, consumer := l.(pc := Reverse, cur := s.enqueueHead, newHead := Null),
              u := s.e, e := [], place := (i: Item) => if i in s.e then Unreversed else s.place(i))
    case Reverse =>
      if l.cur.To? then
        s.(next := Put(s.next, l.cur.item, l.newHead), consumer := l.(newHead := l.cur, cur := s.next(l.cur.item)),
           u := if s.u == [] then [] else s.u[1..], r := [l.cur.item] + s.r,
           place := Put(s.place, l.cur.item, Reversed))
      else s.(consumer := l.(pc := Publish))
    case Publish =>
      if l.newHead.Null? then Answered(s, GotNull)
      else if l.call.Dequeue? then Taken(s, l.newHead.item, if s.r == [] then [] else s.r[1..])
      else Answered(s, Got(l.newHead.item)).(dequeueHead := l.newHead, d := s.r, r := [],
                                             place := (i: Item) => if i in s.r then InDequeueList else s.place(i))
    case ReadEnqueueHead => Answered(s, Empty(s.enqueueHead.Null?))
    case Return => s.(consumer := l.(pc := DeqIdle))
    case DeqIdle => s
  }

  function Do(s: State, a: Action): State {
    match a
    case BeginEnqueue(t, i) =>
      s.(producer := Put(s.producer, t, Producer(ReadHead, i, Null)), place := Put(s.place, i, Claimed(t)))
    case Enqueue(t) => EnqueueStep(s, t)
    case BeginCall(c) => s.(consumer := Consumer(ReadDequeueHead, c, Null, Null, NoAnswer))
    case Consume => ConsumeStep(s)
  }

  /** An item is given to one enqueue, while it is in no queue; a dequeued item may be used again. */
  predicate Allowed(s: State, a: Action) {
    match a
    case BeginEnqueue(t, i) => s.producer(t).pc.EnqIdle? && s.place(i).Free?
    case Enqueue(t) => true
    case BeginCall(c) => s.consumer.pc.DeqIdle?
    case Consume => true
  }

  ghost predicate Init(s: State) {
    && s.dequeueHead == Null && s.enqueueHead == Null && s.consumer.pc.DeqIdle?
    && s.d == [] && s.u == [] && s.r == [] && s.e == [] && s.enqueued == [] && s.dequeued == []
    && (forall t: Tid :: s.producer(t).pc.EnqIdle?) && (forall i: Item :: s.place(i).Free?)
  }

  // ---------- the invariant ----------

  function PtrAt(q: seq<Item>, i: nat): Ptr { if i < |q| then To(q[i]) else Null }

  /** The links lead from p through q to NULL. */
  ghost predicate Chain(next: Item -> Ptr, p: Ptr, q: seq<Item>) {
    p == PtrAt(q, 0) && forall i {:trigger next(q[i])} :: 0 <= i < |q| ==> next(q[i]) == PtrAt(q, i + 1)
  }

  ghost predicate Distinct(q: seq<Item>) { forall i, j :: 0 <= i < j < |q| ==> q[i] != q[j] }

  /** An item is on at most one list, and there at one place. */
  ghost predicate ItemOk(s: State, i: Item) {
    && (i in s.d <==> s.place(i).InDequeueList?) && (i in s.u <==> s.place(i).Unreversed?)
    && (i in s.r <==> s.place(i).Reversed?) && (i in s.e <==> s.place(i).InEnqueueList?)
  }

  ghost predicate ProducerOk(s: State, t: Tid) {
    var l := s.producer(t);
    && (!l.pc.EnqIdle? ==> s.place(l.item) == Claimed(t))
    && (l.pc.CasHead? ==> s.next(l.item) == l.head)
  }

  ghost predicate ConsumerOk(s: State) {
    var l := s.consumer;
    && (l.pc.Reverse? || l.pc.Publish? ==>
       Chain(s.next, l.cur, s.u) && Chain(s.next, l.newHead, s.r) && !l.call.IsEmpty?)
    && (l.pc.Publish? ==> s.u == [])
    && (!(l.pc.Reverse? || l.pc.Publish?) ==> s.u == [] && s.r == [])
    && (l.pc.Grab? || l.pc.Reverse? || l.pc.Publish? || l.pc.ReadEnqueueHead? ==> s.d == [])
    && (l.pc.Publish? || (l.pc.Reverse? && l.cur.Null?) ==> s.r != [])
    && (l.pc.Reverse? ==> s.u != [] || s.r != [])
    && (l.pc.Grab? ==> !l.call.IsEmpty?) && (l.pc.ReadEnqueueHead? ==> l.call.IsEmpty?)
    && (l.pc.Advance? ==> l.call.Dequeue? && s.d != [] && l.cur == To(s.d[0]))
  }

  ghost predicate Inv(s: State) {
    && Chain(s.next, s.dequeueHead, s.d) && Chain(s.next, s.enqueueHead, s.e)
    && Distinct(s.d) && Distinct(s.u) && Distinct(s.r) && Distinct(s.e)
    && (forall i: Item :: ItemOk(s, i)) && (forall t: Tid :: ProducerOk(s, t))
    && ConsumerOk(s)
    && s.enqueued == s.dequeued + Queue(s)
  }
}
