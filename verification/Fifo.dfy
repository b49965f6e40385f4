// The specification: a bounded FIFO queue that answers each request in one atomic step.
module Fifo {
  import opened Ring

  // A write of a number, a read of /proc/kboard/writer, and a read of /proc/kboard/reader with the
  // random number it drew.
  datatype Op = Enqueue(item: int) | Dequeue | Peek(random: nat)

  datatype Response =
    | Stored             // the length, after a successful write
    | Removed(item: int) // 0 and the item
    | Shown(value: int)  // the value of the chosen slot
    | Full               // -EPERM
    | Empty              // -EPERM
    | Invalid            // -EINVAL, a negative number

  // The queue, and how many items have been removed from it so far.
  datatype Queue = Queue(items: seq<int>, removed: nat)

  const EMPTY_QUEUE := Queue([], 0)

  function Apply(cap: nat, q: Queue, op: Op): (Queue, Response)
    requires cap > 0
  {
    match op
    case Enqueue(item) =>
      if item < 0 then (q, Invalid)
      else if |q.items| >= cap then (q, Full)
      else (Queue(q.items + [item], q.removed), Stored)
    case Dequeue =>
      if q.items == [] then (q, Empty)
      else (Queue(q.items[1..], q.removed + 1), Removed(q.items[0]))
    case Peek(random) =>
      (q, Shown(At(q.items, (random % cap - q.removed) % cap)))
  }

  // One answered request of thread tid.
  datatype Event = Event(tid: nat, op: Op, response: Response)

  datatype Outcome = Illegal | Legal(queue: Queue)

  // Do the events, in this order, form a history of the atomic queue? If so, what is in it afterwards?
  function Replay(cap: nat, log: seq<Event>): Outcome
    requires cap > 0
  {
    if log == [] then Legal(EMPTY_QUEUE)
    else
      match Replay(cap, log[..|log| - 1])
      case Illegal => Illegal
      case Legal(q) =>
        var (q', response) := Apply(cap, q, log[|log| - 1].op);
        if response == log[|log| - 1].response then Legal(q') else Illegal
  }

  lemma ReplayAppend(cap: nat, log: seq<Event>, e: Event)
    requires cap > 0
    ensures Replay(cap, log + [e]) ==
            match Replay(cap, log)
            case Illegal => Illegal
            case Legal(q) => if Apply(cap, q, e.op).1 == e.response then Legal(Apply(cap, q, e.op).0) else Illegal
  {
    assert (log + [e])[..|log|] == log;
  }

  // The items of the accepted enqueues, and of the accepted dequeues.
  function Accepted(log: seq<Event>): seq<int> {
    if log == [] then []
    else
      var e := log[|log| - 1];
      Accepted(log[..|log| - 1]) + (if e.op.Enqueue? && e.response.Stored? then [e.op.item] else [])
  }

  function Delivered(log: seq<Event>): seq<int> {
    if log == [] then []
    else
      var e := log[|log| - 1];
      Delivered(log[..|log| - 1]) + (if e.op.Dequeue? && e.response.Removed? then [e.response.item] else [])
  }

  // One answer of the atomic queue, on top of a history in which everything accepted has been
  // delivered or is still queued.
  lemma ApplyKeepsOrder(cap: nat, q: Queue, op: Op, accepted: seq<int>, delivered: seq<int>)
    requires cap > 0 && accepted == delivered + q.items
    ensures var (q', response) := Apply(cap, q, op);
            && accepted + (if op.Enqueue? && response.Stored? then [op.item] else []) ==
               delivered + (if op.Dequeue? && response.Removed? then [response.item] else []) + q'.items
            && q'.removed == q.removed + (if op.Dequeue? && response.Removed? then 1 else 0)
            && (|q.items| <= cap ==> |q'.items| <= cap)
  {
    if op.Dequeue? && q.items != [] {
      assert q.items == [q.items[0]] + q.items[1..];
    }
  }

  // A legal history is first-in first-out: what was delivered, followed by what is still queued,
  // is what was accepted, in order; and it never holds more than the capacity.
  lemma {:induction false} FirstInFirstOut(cap: nat, log: seq<Event>)
    requires cap > 0 && Replay(cap, log).Legal?
    ensures var q := Replay(cap, log).queue;
            && Accepted(log) == Delivered(log) + q.items
            && q.removed == |Delivered(log)|
            && |q.items| <= cap
  {
    if log != [] {
      var before, e := log[..|log| - 1], log[|log| - 1];
      FirstInFirstOut(cap, before);
      ApplyKeepsOrder(cap, Replay(cap, before).queue, e.op, Accepted(before), Delivered(before));
    }
  }

  // ---- What the answers of a history say, in terms of what was accepted and delivered before ----

  // Item number i of all the accepted ones lives in slot i % cap, from its enqueue to its dequeue; v is
  // what such a slot shows, -1 if no item lives there.
  ghost predicate ShownInSlot(cap: nat, log: seq<Event>, slot: nat, v: int)
    requires cap > 0
  {
    if exists i :: Lives(cap, log, slot, i) then exists i :: Lives(cap, log, slot, i) && v == Accepted(log)[i]
    else v == -1
  }

  ghost predicate Lives(cap: nat, log: seq<Event>, slot: nat, i: int)
    requires cap > 0
  {
    |Delivered(log)| <= i < |Accepted(log)| && i % cap == slot
  }

  // The one right answer to a request after these events.
  ghost predicate Right(cap: nat, log: seq<Event>, op: Op, response: Response)
    requires cap > 0
  {
    match op
    case Enqueue(item) =>
      response == (if item < 0 then Invalid else if |Accepted(log)| - |Delivered(log)| < cap then Stored else Full)
    case Dequeue =>
      if |Delivered(log)| < |Accepted(log)| then response == Removed(Accepted(log)[|Delivered(log)|])
      else response == Empty
    case Peek(random) =>
      response.Shown? && ShownInSlot(cap, log, random % cap, response.value)
  }

  // Offset k of the window that starts after `removed` items is where slot (removed + k) % cap is shown.
  lemma SlotOfItem(cap: nat, removed: nat, k: nat, slot: nat)
    requires k < cap && slot < cap
    ensures (removed + k) % cap == slot <==> k == (slot - removed) % cap
  {
    var q, r := (slot - removed) / cap, (slot - removed) % cap;
    assert slot - removed == cap * q + r;
    if k == r {
      assert removed + k == cap * (-q) + slot;
      ModUnique(removed + k, cap, -q, slot);
    }
    if (removed + k) % cap == slot {
      var p := (removed + k) / cap;
      assert removed + k == cap * p + slot;
      assert slot - removed == cap * (-p) + k;
      ModUnique(slot - removed, cap, -p, k);
    }
  }

  // So at most one item lives in a slot of a legal history.
  lemma WhoLives(cap: nat, log: seq<Event>, slot: nat) returns (k: nat)
    requires cap > 0 && Replay(cap, log).Legal? && slot < cap
    ensures k == (slot - |Delivered(log)|) % cap
    ensures forall i :: Lives(cap, log, slot, i) <==> i == |Delivered(log)| + k && i < |Accepted(log)|
  {
    FirstInFirstOut(cap, log);
    var removed := |Delivered(log)|;
    k := (slot - removed) % cap;
    forall i
      ensures Lives(cap, log, slot, i) <==> i == removed + k && i < |Accepted(log)|
    {
      if removed <= i < |Accepted(log)| { SlotOfItem(cap, removed, i - removed, slot); }
    }
  }

  lemma ShownIsItem(cap: nat, log: seq<Event>, slot: nat, v: int, i: int)
    requires cap > 0 && Lives(cap, log, slot, i) && forall j :: Lives(cap, log, slot, j) ==> j == i
    ensures ShownInSlot(cap, log, slot, v) <==> v == Accepted(log)[i]
  {
  }

  lemma ShownIsEmpty(cap: nat, log: seq<Event>, slot: nat, v: int)
    requires cap > 0 && forall j :: !Lives(cap, log, slot, j)
    ensures ShownInSlot(cap, log, slot, v) <==> v == -1
  {
  }

  lemma PeekIsRight(cap: nat, log: seq<Event>, slot: nat, v: int)
    requires cap > 0 && Replay(cap, log).Legal? && slot < cap
    ensures ShownInSlot(cap, log, slot, v) <==>
            At(Replay(cap, log).queue.items, (slot - Replay(cap, log).queue.removed) % cap) == v
  {
    FirstInFirstOut(cap, log);
    var k := WhoLives(cap, log, slot);
    var i := |Delivered(log)| + k;
    if i < |Accepted(log)| {
      ShownIsItem(cap, log, slot, v, i);
    } else {
      ShownIsEmpty(cap, log, slot, v);
    }
  }

  lemma AnswerIsRight(cap: nat, log: seq<Event>, op: Op, response: Response)
    requires cap > 0 && Replay(cap, log).Legal?
    ensures Right(cap, log, op, response) <==> Apply(cap, Replay(cap, log).queue, op).1 == response
  {
    FirstInFirstOut(cap, log);
    if op.Peek? && response.Shown? { PeekIsRight(cap, log, op.random % cap, response.value); }
  }

  ghost predicate AllRight(cap: nat, log: seq<Event>)
    requires cap > 0
  {
    forall k :: 0 <= k < |log| ==> Right(cap, log[..k], log[k].op, log[k].response)
  }

  lemma AllRightAppend(cap: nat, log: seq<Event>, e: Event)
    requires cap > 0
    ensures AllRight(cap, log + [e]) <==> AllRight(cap, log) && Right(cap, log, e.op, e.response)
  {
    var longer := log + [e];
    assert forall k :: 0 <= k < |log| ==> longer[..k] == log[..k] && longer[k] == log[k];
    assert longer[..|log|] == log && longer[|log|] == e;
  }

  // A log is a history of the atomic queue if and only if every answer in it is the right one.
  lemma {:induction false} LegalExactlyWhenRight(cap: nat, log: seq<Event>)
    requires cap > 0
    ensures Replay(cap, log).Legal? <==> AllRight(cap, log)
  {
    if log != [] {
      var before, e := log[..|log| - 1], log[|log| - 1];
      assert log == before + [e];
      LegalExactlyWhenRight(cap, before);
      AllRightAppend(cap, before, e);
      ReplayAppend(cap, before, e);
      if Replay(cap, before).Legal? {
        AnswerIsRight(cap, before, e.op, e.response);
      }
    }
  }

  // The answers thread t got, in the order it asked.
  function Answers(log: seq<Event>, t: nat): seq<(Op, Response)> {
    if log == [] then []
    else
      var e := log[|log| - 1];
      Answers(log[..|log| - 1], t) + (if e.tid == t then [(e.op, e.response)] else [])
  }

  lemma AnswersAppend(log: seq<Event>, e: Event, t: nat)
    ensures Answers(log + [e], t) == Answers(log, t) + (if e.tid == t then [(e.op, e.response)] else [])
  {
    assert (log + [e])[..|log|] == log;
  }

  // The same answers, in whatever order, are a history of the atomic queue.
  ghost predicate InSomeOrder(cap: nat, log: seq<Event>)
    requires cap > 0
  {
    exists other :: multiset(other) == multiset(log) && Replay(cap, other).Legal?
  }

  lemma {:induction false} CountsConcat(log: seq<Event>, more: seq<Event>)
    ensures |Accepted(log + more)| == |Accepted(log)| + |Accepted(more)|
    ensures |Delivered(log + more)| == |Delivered(log)| + |Delivered(more)|
  {
    if more == [] {
      assert log + more == log;
    } else {
      CountsConcat(log, more[..|more| - 1]);
      assert (log + more)[..|log + more| - 1] == log + more[..|more| - 1];
    }
  }

  lemma Without(log: seq<Event>, i: nat)
    requires i < |log|
    ensures log == log[..i] + [log[i]] + log[i + 1..]
    ensures multiset(log[..i] + log[i + 1..]) == multiset(log) - multiset{log[i]}
  {
    assert log == log[..i] + [log[i]] + log[i + 1..];
    assert multiset(log) == multiset(log[..i]) + multiset{log[i]} + multiset(log[i + 1..]);
  }

  lemma CountsWithout(log: seq<Event>, i: nat)
    requires i < |log|
    ensures |Accepted(log)| == |Accepted(log[..i] + log[i + 1..])| + |Accepted([log[i]])|
    ensures |Delivered(log)| == |Delivered(log[..i] + log[i + 1..])| + |Delivered([log[i]])|
  {
    Without(log, i);
    CountsConcat(log[..i], log[i + 1..]);
    CountsConcat(log[..i], [log[i]]);
    CountsConcat(log[..i] + [log[i]], log[i + 1..]);
  }

  // How many items are accepted and delivered does not depend on the order.
  lemma {:induction false} CountsOfMultiset(log: seq<Event>, other: seq<Event>)
    requires multiset(log) == multiset(other)
    ensures |Accepted(log)| == |Accepted(other)| && |Delivered(log)| == |Delivered(other)|
  {
    assert |log| == |multiset(log)| == |other|;
    if log != [] {
      var last := |log| - 1;
      var e := log[last];
      assert e in multiset(log);
      var i :| 0 <= i < |other| && other[i] == e;
      assert log[..last] + log[last + 1..] == log[..last];
      Without(log, last);
      Without(other, i);
      CountsWithout(log, last);
      CountsWithout(other, i);
      CountsOfMultiset(log[..last], other[..i] + other[i + 1..]);
    }
  }

  // No order can make up for an item delivered that was not accepted.
  lemma NoOrderDeliversMore(cap: nat, log: seq<Event>)
    requires cap > 0 && InSomeOrder(cap, log)
    ensures |Delivered(log)| <= |Accepted(log)|
  {
    var other :| multiset(other) == multiset(log) && Replay(cap, other).Legal?;
    CountsOfMultiset(log, other);
    FirstInFirstOut(cap, other);
  }
}
