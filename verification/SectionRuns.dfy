// One thread working through its critical section in a run of the module while the others stand still:
// what each stretch of it does to the board and the log, whoever else is inside.
module SectionRuns {
  import opened Fifo
  import opened Kboard
  import opened Service
  import Ring

  // b after thread t has worked up to `at`, leaving the board and the log like this.
  function Worked(b: Kboard.State, t: nat, op: Op, at: Body, board: Board, log: seq<Event>): Kboard.State
    requires t < |b.jobs|
  {
    b.(board := board, jobs := b.jobs[t := Running(op, at)], log := log)
  }

  // In the state sched leads to, thread t is in its critical section.
  ghost predicate Working(s: Service.State, sched: seq<Choice>, t: nat) {
    && CanRun(s, sched)
    && var here := Run(s, sched); Paired(here) && t < Threads(here.sync) && ZoneOf(here.sync, t).Inside?
  }

  // And at the start of it, with request op.
  ghost predicate Begins(s: Service.State, sched: seq<Choice>, t: nat, op: Op) {
    && Working(s, sched, t) && Fits(op, LoadPerform)
    && var b := Run(s, sched).board; b.jobs[t] == Running(op, LoadPerform) && InBounds(b.board)
  }

  // sched' leads to the same as sched, but for the work of thread t.
  ghost predicate Since(s: Service.State, sched: seq<Choice>, sched': seq<Choice>,
                        t: nat, op: Op, at: Body, board: Board, log: seq<Event>)
    requires Working(s, sched, t)
  {
    && CanRun(s, sched') && Calls(sched') == Calls(sched)
    && Run(s, sched') == Run(s, sched).(board := Worked(Run(s, sched).board, t, op, at, board, log))
  }

  // One more step of a thread that has been working since sched.
  lemma More(s: Service.State, sched: seq<Choice>, sched1: seq<Choice>,
             t: nat, op: Op, at: Body, board: Board, log: seq<Event>)
    returns (sched2: seq<Choice>)
    requires Working(s, sched, t) && Since(s, sched, sched1, t, op, at, board, log)
    requires Fits(op, at) && InBounds(board) && !at.Done?
    ensures var (board', at') := BodyStep(board, op, at);
            Since(s, sched, sched2, t, op, at', board',
                  if Decided(at') && !Decided(at) then log + [Event(t, op, Answer(at'))] else log)
  {
    var (board', at') := BodyStep(board, op, at);
    var b := Run(s, sched).board;
    assert b.jobs[t := Running(op, at)][t := Running(op, at')] == b.jobs[t := Running(op, at')];
    sched2 := Then(s, sched1, Work(t));
  }

  function Counted(b: Board, op: Op): Board {
    if op.Peek? then b.(performReader := b.performReader + 1) else b.(performWriter := b.performWriter + 1)
  }

  // A thread that has just got in increments PerformWriter or PerformReader.
  lemma Starts(s: Service.State, sched: seq<Choice>, t: nat, op: Op) returns (sched': seq<Choice>)
    requires Begins(s, sched, t, op)
    ensures var b := Run(s, sched).board;
            Since(s, sched, sched', t, op, if op.Peek? then ShowSlot else if op.Dequeue? then TestEmpty else TestFull,
                  Counted(b.board, op), b.log)
  {
    var b := Run(s, sched).board;
    assert b.jobs[t := b.jobs[t]] == b.jobs;
    sched' := More(s, sched, sched, t, op, LoadPerform, b.board, b.log);
    var tmp := if op.Peek? then b.board.performReader else b.board.performWriter;
    sched' := More(s, sched, sched', t, op, StorePerform(tmp), b.board, b.log);
  }

  // The board after a number has been stored in a slot and counted.
  function Enqueued(b: Board, slot: nat, item: int): Board
    requires slot < |b.ring|
  {
    b.(ring := b.ring[slot := item], count := b.count + 1)
  }

  // The first half of an enqueue, lines 477-487 up to the address, with room in the ring.
  lemma Picks(s: Service.State, sched: seq<Choice>, t: nat, item: int) returns (sched': seq<Choice>)
    requires Begins(s, sched, t, Enqueue(item)) && Run(s, sched).board.board.count < Cap(Run(s, sched).board)
    ensures var b := Run(s, sched).board;
            Since(s, sched, sched', t, Enqueue(item), FillSlot(Ring.Remainder(b.board.index + b.board.count, Cap(b))),
                  Counted(b.board, Enqueue(item)), b.log)
  {
    var b, op := Run(s, sched).board, Enqueue(item);
    sched' := Starts(s, sched, t, op);
    sched' := More(s, sched, sched', t, op, TestFull, Counted(b.board, op), b.log);
    sched' := More(s, sched, sched', t, op, PickSlot, Counted(b.board, op), b.log);
  }

  // A whole enqueue into an empty ring, lines 477-488.
  lemma Enqueues(s: Service.State, sched: seq<Choice>, t: nat, item: int) returns (sched': seq<Choice>)
    requires Begins(s, sched, t, Enqueue(item)) && Run(s, sched).board.board.count == 0
    ensures var b := Run(s, sched).board;
            Since(s, sched, sched', t, Enqueue(item), Done(Stored),
                  Enqueued(Counted(b.board, Enqueue(item)), b.board.index, item),
                  b.log + [Event(t, Enqueue(item), Stored)])
  {
    var b := Run(s, sched).board;
    Ring.Wrapped(b.board.index, Cap(b));
    sched' := Picks(s, sched, t, item);
    sched' := FillsAndCounts(s, sched, sched', t, item, b.board.index, Counted(b.board, Enqueue(item)));
  }

  lemma FillsAndCounts(s: Service.State, sched: seq<Choice>, sched1: seq<Choice>,
                       t: nat, item: int, slot: nat, board: Board)
    returns (sched2: seq<Choice>)
    requires Working(s, sched, t) && item >= 0 && InBounds(board) && slot < |board.ring|
    requires Since(s, sched, sched1, t, Enqueue(item), FillSlot(slot), board, Run(s, sched).board.log)
    ensures Since(s, sched, sched2, t, Enqueue(item), Done(Stored), Enqueued(board, slot, item),
                  Run(s, sched).board.log + [Event(t, Enqueue(item), Stored)])
  {
    var op, log := Enqueue(item), Run(s, sched).board.log;
    var filled, log' := board.(ring := board.ring[slot := item]), log + [Event(t, op, Stored)];
    sched2 := More(s, sched, sched1, t, op, FillSlot(slot), board, log);
    sched2 := More(s, sched, sched2, t, op, LoadMore, filled, log');
    sched2 := More(s, sched, sched2, t, op, StoreMore(board.count), filled, log');
  }

  // A whole peek.
  lemma Peeks(s: Service.State, sched: seq<Choice>, t: nat, random: nat) returns (sched': seq<Choice>, value: int)
    requires Begins(s, sched, t, Peek(random))
    ensures var b := Run(s, sched).board;
            Since(s, sched, sched', t, Peek(random), Done(Shown(value)), Counted(b.board, Peek(random)),
                  b.log + [Event(t, Peek(random), Shown(value))])
  {
    var b := Run(s, sched).board;
    value := b.board.ring[random % Cap(b)];
    sched' := Starts(s, sched, t, Peek(random));
    sched' := More(s, sched, sched', t, Peek(random), ShowSlot, Counted(b.board, Peek(random)), b.log);
  }

  // The first half of a dequeue, lines 417-427, with something in the ring.
  lemma Takes(s: Service.State, sched: seq<Choice>, t: nat) returns (sched': seq<Choice>)
    requires Begins(s, sched, t, Dequeue) && Run(s, sched).board.board.count > 0
    ensures var b := Run(s, sched).board;
            Since(s, sched, sched', t, Dequeue, ClearSlot(b.board.ring[b.board.index]),
                  Counted(b.board, Dequeue), b.log)
  {
    var b := Run(s, sched).board;
    sched' := Starts(s, sched, t, Dequeue);
    sched' := More(s, sched, sched', t, Dequeue, TestEmpty, Counted(b.board, Dequeue), b.log);
    sched' := More(s, sched, sched', t, Dequeue, TakeItem, Counted(b.board, Dequeue), b.log);
  }

  // The board after the slot at the index has been cleared, and the counts have moved.
  function Cleared(b: Board): Board
    requires InBounds(b)
  {
    b.(ring := b.ring[b.index := Ring.EMPTY_SLOT], count := b.count - 1)
  }

  function WithNextIndex(b: Board): (r: Board)
    requires InBounds(b)
    ensures InBounds(r) && |r.ring| == |b.ring|
  {
    b.(index := Ring.Remainder(b.index + 1, |b.ring|))
  }

  // The second half, lines 428-430: the item is delivered, whatever has become of the board.
  lemma Removes(s: Service.State, sched: seq<Choice>, t: nat, item: int) returns (sched': seq<Choice>)
    requires Working(s, sched, t)
    requires var b := Run(s, sched).board; b.jobs[t] == Running(Dequeue, ClearSlot(item)) && InBounds(b.board)
    ensures var b := Run(s, sched).board;
            Since(s, sched, sched', t, Dequeue, Done(Removed(item)), WithNextIndex(Cleared(b.board)),
                  b.log + [Event(t, Dequeue, Removed(item))])
  {
    var b := Run(s, sched).board;
    sched' := Clears(s, sched, t, item);
    sched' := MovesOn(s, sched, sched', t, item, Cleared(b.board), b.log + [Event(t, Dequeue, Removed(item))]);
  }

  lemma MovesOn(s: Service.State, sched: seq<Choice>, sched1: seq<Choice>,
                t: nat, item: int, board: Board, log: seq<Event>)
    returns (sched2: seq<Choice>)
    requires Working(s, sched, t) && InBounds(board)
    requires Since(s, sched, sched1, t, Dequeue, LoadIndex(item), board, log)
    ensures Since(s, sched, sched2, t, Dequeue, Done(Removed(item)), WithNextIndex(board), log)
  {
    sched2 := More(s, sched, sched1, t, Dequeue, LoadIndex(item), board, log);
    sched2 := More(s, sched, sched2, t, Dequeue, StoreIndex(item, board.index), board, log);
  }

  lemma Clears(s: Service.State, sched: seq<Choice>, t: nat, item: int) returns (sched': seq<Choice>)
    requires Working(s, sched, t)
    requires var b := Run(s, sched).board; b.jobs[t] == Running(Dequeue, ClearSlot(item)) && InBounds(b.board)
    ensures var b := Run(s, sched).board;
            Since(s, sched, sched', t, Dequeue, LoadIndex(item), Cleared(b.board),
                  b.log + [Event(t, Dequeue, Removed(item))])
  {
    var b := Run(s, sched).board;
    var cleared := b.board.(ring := b.board.ring[b.board.index := Ring.EMPTY_SLOT]);
    var log' := b.log + [Event(t, Dequeue, Removed(item))];
    assert b.jobs[t := b.jobs[t]] == b.jobs;
    sched' := More(s, sched, sched, t, Dequeue, ClearSlot(item), b.board, b.log);
    sched' := More(s, sched, sched', t, Dequeue, LoadLess(item), cleared, log');
    sched' := More(s, sched, sched', t, Dequeue, StoreLess(item, b.board.count), cleared, log');
  }
}
