// The critical sections of lab2/KboardModule.c, one load, test or store at a time: KboardWriter_Show
// (dequeue), KboardWriter_Write (enqueue) and KboardReader_Show (peek). Which threads may be in a
// section together is up to the protocol; here it is the hypothesis Solitary.
module Kboard {
  import opened Ring
  import opened Fifo
  import opened Zones

  // Where a thread inside its critical section stands.
  datatype Body =
    | LoadPerform                        // 417, 477, 515: PerformWriter++ or PerformReader++
    | StorePerform(tmp: int)
    | TestEmpty                          // 420
    | TakeItem                           // 427
    | ClearSlot(item: int)               // 428
    | LoadLess(item: int)                // 429: RingBufferCount--
    | StoreLess(item: int, tmp: int)
    | LoadIndex(item: int)               // 430
    | StoreIndex(item: int, tmp: int)
    | TestFull                           // 480
    | PickSlot                           // 487: the address
    | FillSlot(slot: int)                // 487: the store
    | LoadMore                           // 488: RingBufferCount++
    | StoreMore(tmp: int)
    | ShowSlot                           // 517
    | Done(response: Response)

  // One request of a thread, from the call to the return.
  datatype Job =
    | Free
    | Waiting(op: Op)
    | Running(op: Op, at: Body)
    | Finished(op: Op, response: Response)

  datatype Board = Board(ring: seq<int>, count: int, index: int, performWriter: int, performReader: int)

  // The board and its threads. The last two fields only record what happened: no step reads them.
  datatype State = State(board: Board, jobs: seq<Job>, log: seq<Event>, past: seq<seq<(Op, Response)>>)

  function RoleOf(op: Op): Role {
    if op.Peek? then ReaderRole else WriterRole
  }

  // A negative number, which KboardWriter_Write turns away before it enters (lines 469-473).
  predicate Rejected(op: Op) {
    op.Enqueue? && op.item < 0
  }

  // InitializeKboard, for any capacity, with n threads and nothing recorded.
  function Init(cap: nat, n: nat): State {
    State(Board(seq(cap, i => EMPTY_SLOT), 0, 0, 0, 0), seq(n, i => Free), [], seq(n, i => []))
  }

  function Cap(s: State): nat {
    |s.board.ring|
  }

  predicate InBounds(b: Board) {
    0 <= b.index < |b.ring|
  }

  // The program points of each kind of request.
  predicate Fits(op: Op, at: Body) {
    match op
    case Dequeue =>
      at.LoadPerform? || at.StorePerform? || at.TestEmpty? || at.TakeItem? || at.ClearSlot? || at.LoadLess? ||
      at.StoreLess? || at.LoadIndex? || at.StoreIndex? || at.Done?
    case Enqueue(item) =>
      item >= 0 &&
      (at.LoadPerform? || at.StorePerform? || at.TestFull? || at.PickSlot? || at.FillSlot? || at.LoadMore? ||
       at.StoreMore? || at.Done?)
    case Peek(_) => at.LoadPerform? || at.StorePerform? || at.ShowSlot? || at.Done?
  }

  function BodyStep(b: Board, op: Op, at: Body): (r: (Board, Body))
    requires InBounds(b) && Fits(op, at) && !at.Done?
    ensures |r.0.ring| == |b.ring|
  {
    match at
    case LoadPerform => (b, StorePerform(if op.Peek? then b.performReader else b.performWriter))
    case StorePerform(tmp) =>
      if op.Peek? then (b.(performReader := tmp + 1), ShowSlot)
      else (b.(performWriter := tmp + 1), if op.Dequeue? then TestEmpty else TestFull)
    case TestEmpty => (b, if b.count <= 0 then Done(Empty) else TakeItem)
    case TakeItem => (b, ClearSlot(b.ring[b.index]))
    case ClearSlot(item) => (b.(ring := b.ring[b.index := EMPTY_SLOT]), LoadLess(item))
    case LoadLess(item) => (b, StoreLess(item, b.count))
    case StoreLess(item, tmp) => (b.(count := tmp - 1), LoadIndex(item))
    case LoadIndex(item) => (b, StoreIndex(item, b.index))
    case StoreIndex(item, tmp) => (b.(index := Remainder(tmp + 1, |b.ring|)), Done(Removed(item)))
    case TestFull => (b, if b.count >= |b.ring| then Done(Full) else PickSlot)
    case PickSlot => (b, FillSlot(Remainder(b.index + b.count, |b.ring|)))
    case FillSlot(slot) => (b.(ring := StoreAt(b.ring, slot, op.item)), LoadMore)
    case LoadMore => (b, StoreMore(b.count))
    case StoreMore(tmp) => (b.(count := tmp + 1), Done(Stored))
    case ShowSlot => (b, Done(Shown(b.ring[op.random % |b.ring|])))
  }

  // A store at an address outside the ring does not change the ring.
  function StoreAt(ring: seq<int>, slot: int, item: int): seq<int> {
    if 0 <= slot < |ring| then ring[slot := item] else ring
  }

  // Where the request has taken effect: it has found the ring empty (420) or full (480), or stored into
  // it (428, 487), or read a slot (517). From there on its answer is fixed.
  predicate Decided(at: Body) {
    at.LoadLess? || at.StoreLess? || at.LoadIndex? || at.StoreIndex? || at.LoadMore? || at.StoreMore? || at.Done?
  }

  function Answer(at: Body): Response
    requires Decided(at)
  {
    match at
    case LoadLess(item) => Removed(item)
    case StoreLess(item, _) => Removed(item)
    case LoadIndex(item) => Removed(item)
    case StoreIndex(item, _) => Removed(item)
    case LoadMore => Stored
    case StoreMore(_) => Stored
    case Done(response) => response
  }

  function WorkLeft(job: Job): nat {
    match job
    case Free => 0
    case Waiting(_) => 12
    case Running(_, at) => BodyLeft(at)
    case Finished(_, _) => 0
  }

  function BodyLeft(at: Body): nat {
    match at
    case LoadPerform => 11
    case StorePerform(_) => 10
    case TestEmpty => 9
    case TakeItem => 8
    case ClearSlot(_) => 7
    case LoadLess(_) => 6
    case StoreLess(_, _) => 5
    case LoadIndex(_) => 4
    case StoreIndex(_, _) => 3
    case TestFull => 8
    case PickSlot => 7
    case FillSlot(_) => 6
    case LoadMore => 5
    case StoreMore(_) => 4
    case ShowSlot => 1
    case Done(_) => 0
  }

  // ---- Steps of a thread ----

  // The answer to a negative number.
  function Reject(s: State, t: nat, item: int): State
    requires t < |s.jobs| && |s.past| == |s.jobs|
  {
    s.(log := s.log + [Event(t, Enqueue(item), Invalid)],
       past := s.past[t := s.past[t] + [(Enqueue(item), Invalid)]])
  }

  // What a step of the protocol means for the request: zone is where the thread is afterwards.
  predicate CanMove(s: State, t: nat, zone: Zone)
    requires t < |s.jobs|
  {
    zone.Leaving? && s.jobs[t].Running? ==> s.jobs[t].at.Done?
  }

  function Move(s: State, t: nat, zone: Zone): State
    requires t < |s.jobs| == |s.past| && CanMove(s, t, zone)
  {
    var job := s.jobs[t];
    if job.Waiting? && zone.Inside? then s.(jobs := s.jobs[t := Running(job.op, LoadPerform)])
    else if job.Running? && zone.Leaving? then s.(jobs := s.jobs[t := Finished(job.op, job.at.response)])
    else if job.Finished? && zone.Outside? then
      s.(jobs := s.jobs[t := Free], past := s.past[t := s.past[t] + [(job.op, job.response)]])
    else s
  }

  predicate CanAccess(s: State, t: nat)
    requires t < |s.jobs|
  {
    s.jobs[t].Running? && !s.jobs[t].at.Done? && Fits(s.jobs[t].op, s.jobs[t].at) && InBounds(s.board)
  }

  // One step of the thread's critical section. The step at which the request takes effect is
  // recorded in the log.
  function Access(s: State, t: nat): State
    requires t < |s.jobs| && CanAccess(s, t)
  {
    var op, at := s.jobs[t].op, s.jobs[t].at;
    var (b', at') := BodyStep(s.board, op, at);
    s.(board := b',
       jobs := s.jobs[t := Running(op, at')],
       log := if Decided(at') && !Decided(at) then s.log + [Event(t, op, Answer(at'))] else s.log)
  }

  // ---- What holds whatever the protocol does ----

  ghost predicate WellFormed(s: State) {
    && |s.past| == |s.jobs|
    && InBounds(s.board)
    && forall t :: 0 <= t < |s.jobs| ==> JobFits(Cap(s), s.jobs[t])
  }

  predicate JobFits(cap: int, job: Job) {
    match job
    case Free => true
    case Waiting(op) => op.Enqueue? ==> op.item >= 0
    case Running(op, at) =>
      && Fits(op, at)
      && (at.FillSlot? ==> -cap < at.slot < cap)
      && (at.StoreIndex? ==> 0 <= at.tmp < cap)
    case Finished(_, _) => true
  }

  lemma AccessStaysWellFormed(s: State, t: nat)
    requires WellFormed(s) && t < |s.jobs| && s.jobs[t].Running? && !s.jobs[t].at.Done?
    ensures CanAccess(s, t) && WellFormed(Access(s, t)) && Cap(Access(s, t)) == Cap(s)
    ensures WorkLeft(Access(s, t).jobs[t]) < WorkLeft(s.jobs[t])
  {
    assert JobFits(Cap(s), s.jobs[t]);
  }

  // ---- What holds when two writers are never inside together ----

  predicate Writing(job: Job) {
    job.Running? && !job.op.Peek?
  }

  // No two writers inside together; readers may be.
  ghost predicate Solitary(jobs: seq<Job>) {
    forall i, j :: 0 <= i < |jobs| && 0 <= j < |jobs| && Writing(jobs[i]) && Writing(jobs[j]) ==> i == j
  }

  // The ring shows the queue. It does so at every micro-step: the ring changes when the queue does.
  ghost predicate Shows(b: Board, q: Queue) {
    |b.ring| > 0 && Represents(b.ring, |q.items|, q.removed % |b.ring|, q.items)
  }

  // RingBufferCount and RingBufferCurrentIndex are those of the queue.
  ghost predicate Stands(b: Board, q: Queue) {
    |b.ring| > 0 && b.count == |q.items| && b.index == q.removed % |b.ring|
  }

  // One item has been removed that the index does not know of yet.
  ghost predicate Behind(b: Board, q: Queue) {
    |b.ring| > 0 && q.removed > 0 && b.index == (q.removed - 1) % |b.ring|
  }

  // The two in the middle of a writer's critical section.
  ghost predicate Midway(b: Board, q: Queue, at: Body) {
    match at
    case TakeItem => Stands(b, q) && q.items != []
    case ClearSlot(item) => Stands(b, q) && q.items != [] && item == q.items[0]
    case LoadLess(_) => Behind(b, q) && b.count == |q.items| + 1
    case StoreLess(_, tmp) => Behind(b, q) && b.count == |q.items| + 1 && tmp == b.count
    case LoadIndex(_) => Behind(b, q) && b.count == |q.items|
    case StoreIndex(_, tmp) => Behind(b, q) && b.count == |q.items| && tmp == b.index
    case PickSlot => Stands(b, q) && b.count < |b.ring|
    case FillSlot(slot) => Stands(b, q) && b.count < |b.ring| && slot == (b.index + b.count) % |b.ring|
    case LoadMore => Stands(b.(count := b.count + 1), q)
    case StoreMore(tmp) => Stands(b.(count := b.count + 1), q) && tmp == b.count
    case _ => Stands(b, q)
  }

  // One step of a critical section: the step at which the request takes effect does to the queue what
  // the atomic queue does and fixes the answer that one gives; any other step leaves the queue alone.
  ghost predicate Refines(b: Board, q: Queue, op: Op, at: Body)
    requires InBounds(b) && Fits(op, at) && !at.Done?
  {
    var (b', at') := BodyStep(b, op, at);
    var effect := Decided(at') && !Decided(at);
    var q' := if effect then Apply(|b.ring|, q, op).0 else q;
    && Fits(op, at')
    && Shows(b', q')
    && (effect ==> Answer(at') == Apply(|b.ring|, q, op).1)
    && (Decided(at) ==> Decided(at') && Answer(at') == Answer(at))
    && (!op.Peek? ==> Midway(b', q', at'))
  }

  // Line 428: the store removes the head of the queue.
  lemma ClearRefines(b: Board, q: Queue, item: int)
    requires InBounds(b) && Shows(b, q) && Midway(b, q, ClearSlot(item))
    ensures Refines(b, q, Dequeue, ClearSlot(item))
  {
    ClearRepresents(b.ring, |q.items|, b.index, q.items);
    NextIndex(|b.ring|, q.removed);
  }

  lemma DequeueRefines(b: Board, q: Queue, at: Body)
    requires InBounds(b) && Fits(Dequeue, at) && !at.Done? && Shows(b, q) && Midway(b, q, at)
    ensures Refines(b, q, Dequeue, at)
  {
    if at.TakeItem? {
      ClearRepresents(b.ring, |q.items|, b.index, q.items);
    } else if at.ClearSlot? {
      ClearRefines(b, q, at.item);
    } else if at.StoreIndex? {
      NextIndex(|b.ring|, q.removed - 1);
    }
  }

  // Line 487: the address is that of the slot behind the window, and the store appends to the queue.
  lemma FillRefines(b: Board, q: Queue, item: int, slot: int)
    requires InBounds(b) && item >= 0 && Shows(b, q) && Midway(b, q, FillSlot(slot))
    ensures Refines(b, q, Enqueue(item), FillSlot(slot))
  {
    FillRepresents(b.ring, |q.items|, b.index, q.items, item);
  }

  lemma EnqueueRefines(b: Board, q: Queue, item: int, at: Body)
    requires InBounds(b) && Fits(Enqueue(item), at) && !at.Done? && Shows(b, q) && Midway(b, q, at)
    ensures Refines(b, q, Enqueue(item), at)
  {
    if at.FillSlot? {
      FillRefines(b, q, item, at.slot);
    }
  }

  // Whatever a writer is about.
  lemma PeekRefines(b: Board, q: Queue, random: nat, at: Body)
    requires InBounds(b) && Fits(Peek(random), at) && !at.Done? && Shows(b, q)
    ensures Refines(b, q, Peek(random), at)
  {
    if at.ShowSlot? {
      OffsetIsMod(|b.ring|, q.removed, random % |b.ring|);
    }
  }

  lemma BodyRefines(b: Board, q: Queue, op: Op, at: Body)
    requires InBounds(b) && Fits(op, at) && !at.Done? && Shows(b, q) && (!op.Peek? ==> Midway(b, q, at))
    ensures Refines(b, q, op, at)
  {
    match op
    case Dequeue => DequeueRefines(b, q, at);
    case Enqueue(item) => EnqueueRefines(b, q, item, at);
    case Peek(random) => PeekRefines(b, q, random, at);
  }
}
