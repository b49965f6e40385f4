// lab1/user/copy_sync_test.c and paste_sync_test.c running side by side on the clipboard of
// lab1/kernel/os_kboard.c: one producer, one consumer, every interleaving of their loads and stores.
module CopyPaste {
  import opened Ring

  // The C type int, 32 bits wide, whose ++ wraps to the least value.
  const INT_MAX: int := 0x7FFF_FFFF
  const INT_MIN: int := -0x8000_0000

  function Increment(x: int): int {
    if x == INT_MAX then INT_MIN else x + 1
  }

  // The producer: copy_sync_test.c:11-21 calling do_sys_kb_enqueue, os_kboard.c:16-46.
  datatype Producer =
    | Offer                // 21: the test for a negative item, before the lock
    | LockP                // 28: spin_lock
    | TestFull             // 31
    | UnlockFull           // 34: spin_unlock, then -1
    | Pick                 // 40: the address
    | Fill(slot: int)      // 40: the store
    | LoadMore             // 41: Count++
    | StoreMore(tmp: int)
    | UnlockP              // 43: spin_unlock, then 0
    | Bump                 // copy_sync_test.c:20 value++

  // The consumer: paste_sync_test.c:17-36 calling do_sys_kb_dequeue, os_kboard.c:49-83.
  datatype Consumer =
    | LockC                // 53: spin_lock
    | TestEmpty            // 56
    | UnlockEmpty          // 59: spin_unlock, then -1
    | Copy                 // 65: copy_to_user
    | UnlockFailed         // 68: spin_unlock, then -2
    | Clear                // 74
    | LoadLess             // 77: Count--
    | StoreLess(tmp: int)
    | LoadIndex            // 78
    | StoreIndex(tmp: int)
    | UnlockC              // 80: spin_unlock, then 0
    | Compare              // paste_sync_test.c:28
    | Advance              // paste_sync_test.c:35 expectValue++
    | Fault                // paste_sync_test.c:30-31: the mismatch branch

  // accepted, delivered and seen only record what happened: no step reads them.
  datatype State = State(
    ring: seq<int>, count: int, index: int, locked: bool,
    value: int, expected: int, clip: int,
    p: Producer, c: Consumer,
    accepted: nat, delivered: nat, seen: seq<int>)

  function Init(cap: nat): State {
    State(seq(cap, i => EMPTY_SLOT), 0, 0, false, 0, 0, 0, Offer, LockC, 0, 0, [])
  }

  // A choice of the scheduler; for the copy to user space also whether it succeeds, and what a
  // failed copy leaves behind.
  datatype Choice = Produce | Consume(copied: bool, garbage: int)

  predicate CanDo(s: State, ch: Choice) {
    && 0 <= s.index < |s.ring|
    && (ch.Produce? ==> (s.p.LockP? ==> !s.locked) && (s.p.Fill? ==> 0 <= s.p.slot < |s.ring|))
    && (ch.Consume? ==> (s.c.LockC? ==> !s.locked) && !s.c.Fault?)
  }

  function Do(s: State, ch: Choice): State
    requires CanDo(s, ch)
  {
    if ch.Produce? then StepP(s) else StepC(s, ch.copied, ch.garbage)
  }

  function StepP(s: State): State
    requires CanDo(s, Produce)
  {
    match s.p
    case Offer => s.(p := if s.value < 0 then Offer else LockP)
    case LockP => s.(locked := true, p := TestFull)
    case TestFull => s.(p := if s.count >= |s.ring| then UnlockFull else Pick)
    case UnlockFull => s.(locked := false, p := Offer)
    case Pick => s.(p := Fill((s.index + s.count) % |s.ring|))
    case Fill(slot) => s.(ring := s.ring[slot := s.value], p := LoadMore)
    case LoadMore => s.(p := StoreMore(s.count))
    case StoreMore(tmp) => s.(count := tmp + 1, p := UnlockP, accepted := s.accepted + 1)
    case UnlockP => s.(locked := false, p := Bump)
    case Bump => s.(value := Increment(s.value), p := Offer)
  }

  function StepC(s: State, copied: bool, garbage: int): State
    requires CanDo(s, Consume(copied, garbage))
  {
    match s.c
    case LockC => s.(locked := true, c := TestEmpty)
    case TestEmpty => s.(c := if s.count <= 0 then UnlockEmpty else Copy)
    case UnlockEmpty => s.(locked := false, c := LockC)
    case Copy =>
      if copied then s.(clip := s.ring[s.index], c := Clear)
      else s.(clip := garbage, c := UnlockFailed)
    case UnlockFailed => s.(locked := false, c := LockC)
    case Clear => s.(ring := s.ring[s.index := EMPTY_SLOT], c := LoadLess)
    case LoadLess => s.(c := StoreLess(s.count))
    case StoreLess(tmp) => s.(count := tmp - 1, c := LoadIndex)
    case LoadIndex => s.(c := StoreIndex(s.index))
    case StoreIndex(tmp) => s.(index := (tmp + 1) % |s.ring|, c := UnlockC, delivered := s.delivered + 1)
    case UnlockC => s.(locked := false, c := Compare, seen := s.seen + [s.clip])
    case Compare => s.(c := if s.clip != s.expected then Fault else Advance)
    case Advance => s.(expected := Increment(s.expected), c := LockC)
  }

  // ---- The invariant ----

  // from, from + 1, ..., to - 1
  function Consecutive(from: nat, to: nat): (r: seq<int>) {
    if from < to then seq(to - from, i requires 0 <= i => from + i) else []
  }

  // The counter of a loop that has completed n increments from 0.
  function Counter(n: nat): int {
    if n <= INT_MAX then n else INT_MIN
  }

  predicate HoldsP(p: Producer) {
    p.TestFull? || p.UnlockFull? || p.Pick? || p.Fill? || p.LoadMore? || p.StoreMore? || p.UnlockP?
  }

  predicate HoldsC(c: Consumer) {
    !(c.LockC? || c.Compare? || c.Advance? || c.Fault?)
  }

  // The producer has stored value and not yet counted on.
  predicate Copied(p: Producer) {
    p.UnlockP? || p.Bump?
  }

  // The consumer has removed clip and not yet counted on.
  predicate Pasted(c: Consumer) {
    c.UnlockC? || c.Compare? || c.Advance?
  }

  ghost predicate Inv(s: State) {
    && Locks(s)
    && s.delivered <= s.accepted
    && Values(s)
    && Board(s, Consecutive(s.delivered, s.accepted))
  }

  ghost predicate Locks(s: State) {
    && 0 <= s.index < |s.ring|
    && s.locked == (HoldsP(s.p) || HoldsC(s.c)) && !(HoldsP(s.p) && HoldsC(s.c))
  }

  ghost predicate Values(s: State) {
    && ValuesP(s.value, s.accepted, s.p)
    && ValuesC(s.expected, s.clip, s.delivered, s.c)
    && s.seen == Consecutive(0, if s.c.UnlockC? then s.delivered - 1 else s.delivered)
  }

  predicate ValuesP(value: int, accepted: nat, p: Producer) {
    && accepted <= INT_MAX + 1
    && (if Copied(p) then accepted > 0 && value == accepted - 1 else value == Counter(accepted))
    && ((HoldsP(p) && !p.UnlockP?) || p.LockP? ==> value >= 0)
  }

  predicate ValuesC(expected: int, clip: int, delivered: nat, c: Consumer) {
    && (if Pasted(c) then delivered > 0 && expected == clip == delivered - 1 else expected == Counter(delivered))
    && !c.Fault?
  }

  // The ring against the queue, at every point of whoever holds the lock.
  ghost predicate Board(s: State, items: seq<int>) {
    if HoldsP(s.p) then BoardP(s.ring, s.count, s.index, s.value, s.p, items)
    else BoardC(s.ring, s.count, s.index, s.clip, s.c, items)
  }

  ghost predicate BoardP(ring: seq<int>, count: int, index: int, value: int, p: Producer, items: seq<int>) {
    match p
    case UnlockFull => Represents(ring, count, index, items) && |items| == |ring|
    case Pick => Represents(ring, count, index, items) && count < |ring|
    case Fill(slot) => Represents(ring, count, index, items) && count < |ring| && slot == (index + count) % |ring|
    case LoadMore => TailFilled(ring, count, index, items, value)
    case StoreMore(tmp) => TailFilled(ring, count, index, items, value) && tmp == count
    case _ => Represents(ring, count, index, items)
  }

  ghost predicate BoardC(ring: seq<int>, count: int, index: int, clip: int, c: Consumer, items: seq<int>) {
    match c
    case UnlockEmpty => Represents(ring, count, index, items) && items == []
    case Copy => Represents(ring, count, index, items) && count > 0
    case Clear => Represents(ring, count, index, items) && count > 0 && clip == items[0]
    case LoadLess => HeadCleared(ring, count, index, items) && clip == items[0]
    case StoreLess(tmp) => HeadCleared(ring, count, index, items) && clip == items[0] && tmp == count
    case LoadIndex => HeadCleared(ring, count + 1, index, items) && clip == items[0]
    case StoreIndex(tmp) => HeadCleared(ring, count + 1, index, items) && clip == items[0] && tmp == index
    case _ => Represents(ring, count, index, items)
  }

  lemma InitInv(cap: nat)
    requires cap > 0
    ensures Inv(Init(cap))
  {
    EmptyRepresents(Init(cap).ring);
  }

  lemma ConsecutiveGrows(from: nat, to: nat)
    requires from <= to
    ensures Consecutive(from, to + 1) == Consecutive(from, to) + [to]
    ensures from < to ==> Consecutive(from, to)[0] == from && Consecutive(from + 1, to) == Consecutive(from, to)[1..]
  {
  }

  lemma ProducerValues(s: State)
    requires Locks(s) && Values(s) && s.delivered <= s.accepted && CanDo(s, Produce)
    ensures Locks(StepP(s)) && Values(StepP(s)) && StepP(s).delivered <= StepP(s).accepted
  {
  }

  lemma HolderP(s: State, items: seq<int>)
    requires CanDo(s, Produce) && s.value >= 0
    requires BoardP(s.ring, s.count, s.index, s.value, s.p, items)
    ensures var s' := StepP(s);
            BoardP(s'.ring, s'.count, s'.index, s.value, s'.p, if s.p.StoreMore? then items + [s.value] else items)
  {
    if s.p.Fill? {
      FillTail(s.ring, s.count, s.index, items, s.value);
    } else if s.p.StoreMore? {
      FinishInsertion(s.ring, s.count, s.index, items, s.value);
    }
  }

  lemma ProducerBoard(s: State)
    requires Inv(s) && CanDo(s, Produce)
    ensures Board(StepP(s), Consecutive(StepP(s).delivered, StepP(s).accepted))
  {
    if HoldsP(s.p) {
      HolderP(s, Consecutive(s.delivered, s.accepted));
      ConsecutiveGrows(s.delivered, s.accepted);
    }
  }

  lemma HolderC(s: State, copied: bool, garbage: int, items: seq<int>)
    requires CanDo(s, Consume(copied, garbage))
    requires BoardC(s.ring, s.count, s.index, s.clip, s.c, items)
    ensures var s' := StepC(s, copied, garbage);
            BoardC(s'.ring, s'.count, s'.index, s'.clip, s'.c, if s.c.StoreIndex? then items[1..] else items)
    ensures s.c.StoreIndex? ==> items != [] && s.clip == items[0]
  {
    if s.c.Copy? {
      ClearRepresents(s.ring, s.count, s.index, items);
    } else if s.c.Clear? {
      ClearHead(s.ring, s.count, s.index, items);
    } else if s.c.StoreIndex? {
      FinishRemoval(s.ring, s.count + 1, s.index, items);
    }
  }

  lemma ConsumerBoard(s: State, copied: bool, garbage: int)
    requires Inv(s) && CanDo(s, Consume(copied, garbage))
    ensures var s' := StepC(s, copied, garbage); Board(s', Consecutive(s'.delivered, s'.accepted))
  {
    if !HoldsP(s.p) {
      HolderC(s, copied, garbage, Consecutive(s.delivered, s.accepted));
      ConsecutiveGrows(s.delivered, s.accepted);
    }
  }

  // The head of a non-empty queue is the number the consumer expects next.
  lemma HeadIsNext(s: State)
    requires Inv(s) && s.c.StoreIndex?
    ensures s.delivered < s.accepted && s.clip == s.delivered
  {
  }

  lemma ConsumerCounts(s: State, copied: bool, garbage: int)
    requires CanDo(s, Consume(copied, garbage)) && ValuesC(s.expected, s.clip, s.delivered, s.c)
    requires s.delivered <= INT_MAX + 1 && (s.c.StoreIndex? ==> s.clip == s.delivered <= INT_MAX)
    ensures var s' := StepC(s, copied, garbage); ValuesC(s'.expected, s'.clip, s'.delivered, s'.c)
  {
  }

  lemma ConsumerValues(s: State, copied: bool, garbage: int)
    requires Locks(s) && Values(s) && s.delivered <= s.accepted && CanDo(s, Consume(copied, garbage))
    requires s.c.StoreIndex? ==> s.delivered < s.accepted && s.clip == s.delivered
    ensures var s' := StepC(s, copied, garbage); Locks(s') && Values(s') && s'.delivered <= s'.accepted
  {
    ConsumerCounts(s, copied, garbage);
    if s.c.UnlockC? { ConsecutiveGrows(0, s.delivered - 1); }
  }

  // ---- Every run ----

  predicate CanRun(s: State, sched: seq<Choice>)
    decreases |sched|, 0
  {
    sched == [] || (CanRun(s, sched[..|sched| - 1]) && CanDo(Run(s, sched[..|sched| - 1]), sched[|sched| - 1]))
  }

  function Run(s: State, sched: seq<Choice>): State
    requires CanRun(s, sched)
    decreases |sched|, 1
  {
    if sched == [] then s else Do(Run(s, sched[..|sched| - 1]), sched[|sched| - 1])
  }

  lemma {:induction false} RunKeeps(cap: nat, sched: seq<Choice>)
    requires cap > 0 && CanRun(Init(cap), sched)
    ensures Inv(Run(Init(cap), sched))
  {
    if sched == [] {
      InitInv(cap);
    } else {
      var before, ch := sched[..|sched| - 1], sched[|sched| - 1];
      RunKeeps(cap, before);
      if ch.Produce? {
        ProducerValues(Run(Init(cap), before));
        ProducerBoard(Run(Init(cap), before));
      } else {
        if Run(Init(cap), before).c.StoreIndex? { HeadIsNext(Run(Init(cap), before)); }
        ConsumerValues(Run(Init(cap), before), ch.copied, ch.garbage);
        ConsumerBoard(Run(Init(cap), before), ch.copied, ch.garbage);
      }
    }
  }

  // End to end: however the two programs interleave, however often a call is refused or a copy
  // fails, the consumer sees 0, 1, 2, ... in order and never takes the mismatch branch; with the
  // lock free, the ring holds the consecutive numbers accepted and not yet delivered.
  lemma PasteSeesCopiesInOrder(cap: nat, sched: seq<Choice>)
    requires cap > 0 && CanRun(Init(cap), sched)
    ensures var s := Run(Init(cap), sched);
            && !s.c.Fault?
            && s.seen == Consecutive(0, |s.seen|)
            && |s.seen| <= s.accepted
            && (!s.locked ==> Represents(s.ring, s.count, s.index, Consecutive(|s.seen|, s.accepted)))
  {
    RunKeeps(cap, sched);
  }

  // A call of the consumer finds nothing only if everything accepted has been delivered, and one of the
  // producer is turned away by the ring only if there are as many undelivered numbers as slots.
  lemma RefusedForGoodReason(cap: nat, sched: seq<Choice>)
    requires cap > 0 && CanRun(Init(cap), sched)
    ensures var s := Run(Init(cap), sched);
            && (s.c.UnlockEmpty? ==> s.accepted == s.delivered)
            && (s.p.UnlockFull? ==> s.accepted == s.delivered + cap)
  {
    RunKeeps(cap, sched);
    SameRing(cap, sched);
  }

  lemma {:induction false} SameRing(cap: nat, sched: seq<Choice>)
    requires CanRun(Init(cap), sched)
    ensures |Run(Init(cap), sched).ring| == cap
  {
    if sched != [] { SameRing(cap, sched[..|sched| - 1]); }
  }

  // How often line 65 has been executed with success.
  function Copies(cap: nat, sched: seq<Choice>): nat
    requires CanRun(Init(cap), sched)
  {
    if sched == [] then 0
    else
      var before, ch := sched[..|sched| - 1], sched[|sched| - 1];
      Copies(cap, before) + (if ch.Consume? && ch.copied && Run(Init(cap), before).c.Copy? then 1 else 0)
  }

  // Between a copy that succeeded and the removal of its number.
  predicate Removing(c: Consumer) {
    c.Clear? || c.LoadLess? || c.StoreLess? || c.LoadIndex? || c.StoreIndex?
  }

  // Each copy to user space that succeeds delivers one number, and one that fails delivers none.
  lemma {:induction false} EachCopyDelivers(cap: nat, sched: seq<Choice>)
    requires CanRun(Init(cap), sched)
    ensures var s := Run(Init(cap), sched);
            Copies(cap, sched) == s.delivered + (if Removing(s.c) then 1 else 0)
  {
    if sched != [] {
      EachCopyDelivers(cap, sched[..|sched| - 1]);
      StepDelivers(Run(Init(cap), sched[..|sched| - 1]), sched[|sched| - 1]);
    }
  }

  lemma StepDelivers(s: State, ch: Choice)
    requires CanDo(s, ch)
    ensures var s' := Do(s, ch);
            s'.delivered + (if Removing(s'.c) then 1 else 0) == s.delivered + (if Removing(s.c) then 1 else 0) +
            (if ch.Consume? && ch.copied && s.c.Copy? then 1 else 0)
  {
  }

  // ---- Each program alone ----

  lemma Then(cap: nat, sched: seq<Choice>, ch: Choice)
    requires cap > 0 && CanRun(Init(cap), sched) && CanDo(Run(Init(cap), sched), ch)
    ensures CanRun(Init(cap), sched + [ch]) && Run(Init(cap), sched + [ch]) == Do(Run(Init(cap), sched), ch)
    ensures Inv(Run(Init(cap), sched)) && Inv(Run(Init(cap), sched + [ch]))
  {
    assert (sched + [ch])[..|sched|] == sched;
    RunKeeps(cap, sched);
    RunKeeps(cap, sched + [ch]);
  }

  // The steps of the consumer until it next finishes a call with a number.
  function ConsumerLeft(c: Consumer): nat {
    match c
    case Compare => 13
    case Advance => 12
    case UnlockEmpty => 11
    case UnlockFailed => 11
    case LockC => 10
    case TestEmpty => 9
    case Copy => 8
    case Clear => 7
    case LoadLess => 6
    case StoreLess(_) => 5
    case LoadIndex => 4
    case StoreIndex(_) => 3
    case UnlockC => 2
    case Fault => 0
  }

  lemma ConsumerMoves(s: State)
    requires Inv(s) && !HoldsP(s.p) && |s.seen| < s.accepted
    ensures CanDo(s, Consume(true, 0))
    ensures var s' := StepC(s, true, 0);
            && s'.p == s.p && s'.accepted == s.accepted
            && (|s'.seen| == |s.seen| + 1 || (|s'.seen| == |s.seen| && ConsumerLeft(s'.c) < ConsumerLeft(s.c)))
  {
  }

  // Unless the producer holds the lock, the consumer alone, its copies succeeding, gets to see every
  // number that has been accepted.
  lemma {:induction false} ConsumerCatchesUp(cap: nat, sched: seq<Choice>) returns (more: seq<Choice>)
    requires cap > 0 && CanRun(Init(cap), sched) && !HoldsP(Run(Init(cap), sched).p)
    ensures CanRun(Init(cap), sched + more) && forall i :: 0 <= i < |more| ==> more[i] == Consume(true, 0)
    ensures var s, s' := Run(Init(cap), sched), Run(Init(cap), sched + more);
            s'.accepted == s.accepted && s'.seen == Consecutive(0, s.accepted)
    decreases Run(Init(cap), sched).accepted - |Run(Init(cap), sched).seen|, ConsumerLeft(Run(Init(cap), sched).c)
  {
    var s := Run(Init(cap), sched);
    RunKeeps(cap, sched);
    if |s.seen| == s.accepted {
      more := [];
      assert sched + more == sched;
    } else {
      var ch := Consume(true, 0);
      ConsumerMoves(s);
      Then(cap, sched, ch);
      var rest := ConsumerCatchesUp(cap, sched + [ch]);
      more := [ch] + rest;
      assert sched + more == sched + [ch] + rest;
    }
  }

  // The steps of the producer until a number is next accepted.
  function ProducerLeft(p: Producer): nat {
    match p
    case UnlockP => 12
    case Bump => 11
    case UnlockFull => 11
    case Offer => 10
    case LockP => 9
    case TestFull => 8
    case Pick => 7
    case Fill(_) => 6
    case LoadMore => 5
    case StoreMore(_) => 4
  }

  lemma ProducerMoves(s: State)
    requires Inv(s) && !HoldsC(s.c) && s.accepted < s.delivered + |s.ring| && s.accepted <= INT_MAX
    ensures CanDo(s, Produce)
    ensures var s' := StepP(s);
            && s'.c == s.c && s'.delivered == s.delivered
            && (s'.accepted == s.accepted + 1 ||
                (s'.accepted == s.accepted && ProducerLeft(s'.p) < ProducerLeft(s.p)))
  {
  }

  lemma ProducerGoesOn(cap: nat, sched: seq<Choice>)
    requires cap > 0 && CanRun(Init(cap), sched) && !HoldsC(Run(Init(cap), sched).c)
    requires var s := Run(Init(cap), sched); s.accepted != s.delivered + cap && s.accepted != INT_MAX + 1
    ensures CanRun(Init(cap), sched + [Produce])
    ensures var s, s' := Run(Init(cap), sched), Run(Init(cap), sched + [Produce]);
            && !HoldsC(s'.c) && s'.delivered == s.delivered && s.accepted <= INT_MAX
            && (s'.accepted == s.accepted + 1 ||
                (s'.accepted == s.accepted && ProducerLeft(s'.p) < ProducerLeft(s.p)))
  {
    RunKeeps(cap, sched);
    SameRing(cap, sched);
    ProducerMoves(Run(Init(cap), sched));
    Then(cap, sched, Produce);
  }

  // Unless the consumer holds the lock, the producer alone gets numbers accepted until the ring is full
  // or it has offered the last one.
  lemma {:induction false} ProducerFillsUp(cap: nat, sched: seq<Choice>) returns (more: seq<Choice>)
    requires cap > 0 && CanRun(Init(cap), sched) && !HoldsC(Run(Init(cap), sched).c)
    ensures CanRun(Init(cap), sched + more) && forall i :: 0 <= i < |more| ==> more[i] == Produce
    ensures var s, s' := Run(Init(cap), sched), Run(Init(cap), sched + more);
            s'.delivered == s.delivered && (s'.accepted == s'.delivered + cap || s'.accepted == INT_MAX + 1)
    decreases INT_MAX + 1 - Run(Init(cap), sched).accepted, ProducerLeft(Run(Init(cap), sched).p)
  {
    var s := Run(Init(cap), sched);
    if s.accepted == s.delivered + cap || s.accepted == INT_MAX + 1 {
      more := [];
      assert sched + more == sched;
    } else {
      ProducerGoesOn(cap, sched);
      var rest := ProducerFillsUp(cap, sched + [Produce]);
      more := [Produce] + rest;
      assert sched + more == sched + [Produce] + rest;
    }
  }

  // With a negative value in hand, the producer is turned away again and again and the ring only drains.
  lemma {:induction false} RefusedForGood(s: State, more: seq<Choice>)
    requires CanRun(s, more) && s.p.Offer? && s.value < 0
    ensures Run(s, more).p.Offer? && Run(s, more).value == s.value && Run(s, more).accepted == s.accepted
  {
    if more != [] {
      RefusedForGood(s, more[..|more| - 1]);
    }
  }

  // The producer stops for good once it has copied INT_MAX: its next value is negative, and whatever
  // the two programs do from then on, it is refused and nothing more is accepted.
  lemma ProducerStopsAtIntMax(cap: nat, sched: seq<Choice>, more: seq<Choice>)
    requires cap > 0 && CanRun(Init(cap), sched) && CanRun(Run(Init(cap), sched), more)
    ensures var s, s' := Run(Init(cap), sched), Run(Run(Init(cap), sched), more);
            && s.accepted <= INT_MAX + 1
            && (s.accepted == INT_MAX + 1 && s.p.Offer? ==>
                  s.value == INT_MIN && s'.p.Offer? && s'.value == INT_MIN && s'.accepted == s.accepted)
  {
    RunKeeps(cap, sched);
    var s := Run(Init(cap), sched);
    if s.accepted == INT_MAX + 1 && s.p.Offer? { RefusedForGood(s, more); }
  }

  // The lock never blocks for good: it is taken exactly when one of the two programs holds it, the one
  // that holds it can step, and when it is free both can.
  lemma SomeoneCanStep(cap: nat, sched: seq<Choice>, copied: bool, garbage: int)
    requires cap > 0 && CanRun(Init(cap), sched)
    ensures var s := Run(Init(cap), sched);
            && (s.locked <==> HoldsP(s.p) || HoldsC(s.c))
            && (HoldsP(s.p) || !s.locked ==> CanDo(s, Produce))
            && (HoldsC(s.c) || !s.locked ==> CanDo(s, Consume(copied, garbage)))
  {
    RunKeeps(cap, sched);
  }
}
