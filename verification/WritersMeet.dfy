// A run of the module under SYNC_SOLUTION 3 in which two writers meet, and what comes of it: visits of one
// writer alone, the meeting, and everybody out again.
module WritersMeet {
  import opened Counting
  import opened Zones
  import opened Fifo
  import opened Kboard
  import opened Service
  import opened ServiceRuns
  import opened SectionRuns
  import opened QuietRuns
  import Ring
  import P = Solution3
  import L = Solution3Trails
  import T = Solution3Threads

  // sched leads to a state in which nobody is in the module; tokens may be left.
  ghost predicate Rests(s: Service.State, sched: seq<Choice>) {
    Inv(s) && CanRun(s, sched) && Run(s, sched).sync.S3? && P.Resting(Run(s, sched).sync.s3)
  }

  lemma RestsFree(s: Service.State, sched: seq<Choice>)
    requires Rests(s, sched)
    ensures Inv(Run(s, sched)) && forall t :: 0 <= t < |Run(s, sched).board.jobs| ==> Run(s, sched).board.jobs[t].Free?
  {
    RunKeeps(s, sched);
    var here := Run(s, sched);
    forall t | 0 <= t < |here.board.jobs|
      ensures here.board.jobs[t].Free?
    {
      assert Agrees(ZoneOf(here.sync, t), here.board.jobs[t]);
    }
  }

  // Nobody is on the way in, and whoever is inside has finished its work.
  predicate NobodyWorks(jobs: seq<Job>) {
    forall t :: 0 <= t < |jobs| ==> jobs[t].Free? || jobs[t].Finished? || (jobs[t].Running? && jobs[t].at.Done?)
  }

  predicate OthersFree(jobs: seq<Job>, i: nat, j: nat) {
    forall t :: 0 <= t < |jobs| && t != i && t != j ==> jobs[t].Free?
  }

  lemma OnlyStepsLeft(s: Service.State) returns (t: nat)
    requires Inv(s) && NobodyWorks(s.board.jobs) && !AllOutside(s)
    ensures CanDo(s, Step(t)) && NobodyWorks(Do(s, Step(t)).board.jobs)
    ensures Do(s, Step(t)).board.board == s.board.board && Do(s, Step(t)).board.log == s.board.log
  {
    var c := Progress(s);
    t := c.tid;
    assert Agrees(ZoneOf(s.sync, t), s.board.jobs[t]);
    GoKeeps(s.sync, t) by { assert c.Step?; }
  }

  // They all leave.
  lemma {:induction false} Empties(s: Service.State, sched: seq<Choice>) returns (sched': seq<Choice>)
    requires Inv(s) && CanRun(s, sched) && Run(s, sched).sync.S3? && NobodyWorks(Run(s, sched).board.jobs)
    ensures Rests(s, sched') && Calls(sched') == Calls(sched)
    ensures Run(s, sched').board.board == Run(s, sched).board.board
    ensures Run(s, sched').board.log == Run(s, sched).board.log
    decreases StepsLeft(Run(s, sched))
  {
    var here := Run(s, sched);
    RunKeeps(s, sched);
    if AllOutside(here) {
      SyncAtRest(here.sync);
      sched' := sched;
    } else {
      var t := OnlyStepsLeft(here);
      StepDescends(here, Step(t));
      sched' := Then(s, sched, Step(t));
      sched' := Empties(s, sched');
    }
  }

  // ---- One writer alone ----

  // The ring empty, or with the number 0 in it, at index k.
  ghost predicate EmptyAt(b: Board, k: nat) {
    k < |b.ring| && b.count == 0 && b.index == k
  }

  ghost predicate ZeroAt(b: Board, k: nat) {
    k < |b.ring| && b.count == 1 && b.index == k && b.ring[k] == 0
  }

  // A run of the protocol without a writer in it at first, and with w bound for the inside at the end.
  lemma AloneInTrail(p: P.State, w: nat) returns (r: L.Trail)
    requires P.Resting(p) && w < |p.pcs|
    ensures L.From(p, r) && r.calls == [(w, WriterRole)] && r.end.pcs == p.pcs[w := P.In(WriterRole)]
    ensures NoWriterLeaves(p, r.sched)
  {
    r := L.GoesIn(p, L.Trail([], p, []), w, WriterRole);
    assert r.calls == [(w, WriterRole)];
    WriterCalls(w, w);
    CountAtLeastOne(r.end.pcs, w, WriterBound);
    NoneHasLeft(p, r.sched);
  }

  lemma WriterCalls(i: nat, j: nat)
    ensures Count([(i, WriterRole)], CallsWriter) == 1 && Count([(i, WriterRole), (j, WriterRole)], CallsWriter) == 2
  {
    CountAppend([], (i, WriterRole), CallsWriter);
    CountAppend([] + [(i, WriterRole)], (j, WriterRole), CallsWriter);
    assert [] + [(i, WriterRole)] == [(i, WriterRole)];
    assert [] + [(i, WriterRole)] + [(j, WriterRole)] == [(i, WriterRole), (j, WriterRole)];
  }

  lemma WriterGoesIn(s: Service.State, sched: seq<Choice>, w: nat, op: Op) returns (sched': seq<Choice>)
    requires Rests(s, sched) && w < Threads(Run(s, sched).sync) && !op.Peek? && !Rejected(op)
    ensures Begins(s, sched', w, op) && Calls(sched') == Calls(sched) + [(w, WriterRole)]
    ensures Run(s, sched').sync.S3? && SameQueue(Run(s, sched).board, Run(s, sched').board)
    ensures OthersFree(Run(s, sched').board.jobs, w, w)
  {
    RestsFree(s, sched);
    var p := Run(s, sched).sync.s3;
    var r := AloneInTrail(p, w);
    sched' := QuietRun(s, sched, p, r.sched, op);
    RunKeeps(s, sched');
    var there := Run(s, sched');
    forall t | 0 <= t < |there.board.jobs|
      ensures if t == w then there.board.jobs[t] == Running(op, LoadPerform) else there.board.jobs[t].Free?
    {
      assert Agrees(ZoneOf(there.sync, t), there.board.jobs[t]) && Ready(there.board.jobs[t], op);
    }
  }

  // A writer comes, stores the number 0 into an empty ring, and leaves.
  lemma EnqueueVisit(s: Service.State, sched: seq<Choice>, w: nat, k: nat) returns (sched': seq<Choice>)
    requires Rests(s, sched) && w < Threads(Run(s, sched).sync) && EmptyAt(Run(s, sched).board.board, k)
    ensures Rests(s, sched') && Calls(sched') == Calls(sched) + [(w, WriterRole)]
    ensures Cap(Run(s, sched').board) == Cap(Run(s, sched).board) && ZeroAt(Run(s, sched').board.board, k)
  {
    sched' := WriterGoesIn(s, sched, w, Enqueue(0));
    sched' := Enqueues(s, sched', w, 0);
    sched' := Empties(s, sched');
  }

  // A writer comes, takes it and leaves.
  lemma DequeueVisit(s: Service.State, sched: seq<Choice>, w: nat, k: nat) returns (sched': seq<Choice>)
    requires Rests(s, sched) && w < Threads(Run(s, sched).sync) && ZeroAt(Run(s, sched).board.board, k)
    ensures Rests(s, sched') && Calls(sched') == Calls(sched) + [(w, WriterRole)]
    ensures Cap(Run(s, sched').board) == Cap(Run(s, sched).board)
    ensures EmptyAt(Run(s, sched').board.board, Ring.Remainder(k + 1, Cap(Run(s, sched).board)))
  {
    sched' := WriterGoesIn(s, sched, w, Dequeue);
    sched' := TakesAndRemoves(s, sched', w, k);
    sched' := Empties(s, sched');
  }

  lemma TakesAndRemoves(s: Service.State, sched: seq<Choice>, w: nat, k: nat) returns (sched': seq<Choice>)
    requires Begins(s, sched, w, Dequeue) && ZeroAt(Run(s, sched).board.board, k)
    requires OthersFree(Run(s, sched).board.jobs, w, w)
    ensures CanRun(s, sched') && Calls(sched') == Calls(sched) && Run(s, sched').sync == Run(s, sched).sync
    ensures NobodyWorks(Run(s, sched').board.jobs) && Cap(Run(s, sched').board) == Cap(Run(s, sched).board)
    ensures EmptyAt(Run(s, sched').board.board, Ring.Remainder(k + 1, Cap(Run(s, sched).board)))
  {
    sched' := Takes(s, sched, w);
    var taken := sched';
    EmptiedBoard(Run(s, taken).board.board, k);
    sched' := Removes(s, taken, w, 0);
    assert Run(s, sched').board.jobs[w] == Running(Dequeue, Done(Removed(0)));
  }

  lemma EmptiedBoard(b: Board, k: nat)
    requires ZeroAt(b, k)
    ensures EmptyAt(WithNextIndex(Cleared(b)), Ring.Remainder(k + 1, |b.ring|))
  {
  }

  // The calls of k such pairs of visits.
  function Pairs(w: nat, k: nat): seq<(nat, Role)> {
    if k == 0 then [] else Pairs(w, k - 1) + [(w, WriterRole), (w, WriterRole)]
  }

  lemma {:induction false} CastPairs(roles: seq<Role>, w: nat, k: nat)
    requires w < |roles| && roles[w].WriterRole?
    ensures Cast(roles, Pairs(w, k))
  {
    if k > 0 { CastPairs(roles, w, k - 1); }
  }

  // With k pairs of visits the index moves to k.
  lemma {:induction false} IndexMoves(s: Service.State, w: nat, k: nat) returns (sched: seq<Choice>)
    requires Rests(s, []) && w < Threads(s.sync) && EmptyAt(s.board.board, 0) && k < Cap(s.board)
    ensures Rests(s, sched) && Calls(sched) == Pairs(w, k)
    ensures Cap(Run(s, sched).board) == Cap(s.board) && EmptyAt(Run(s, sched).board.board, k)
    ensures Threads(Run(s, sched).sync) == Threads(s.sync)
  {
    if k == 0 {
      sched := [];
    } else {
      sched := IndexMoves(s, w, k - 1);
      Ring.Wrapped(k, Cap(s.board));
      sched := OnePair(s, sched, w, k - 1);
    }
  }

  lemma OnePair(s: Service.State, sched: seq<Choice>, w: nat, k: nat) returns (sched': seq<Choice>)
    requires Rests(s, sched) && w < Threads(Run(s, sched).sync) && EmptyAt(Run(s, sched).board.board, k)
    ensures Rests(s, sched') && Calls(sched') == Calls(sched) + [(w, WriterRole), (w, WriterRole)]
    ensures Threads(Run(s, sched').sync) == Threads(Run(s, sched).sync)
    ensures Cap(Run(s, sched').board) == Cap(Run(s, sched).board)
    ensures EmptyAt(Run(s, sched').board.board, Ring.Remainder(k + 1, Cap(Run(s, sched).board)))
  {
    sched' := EnqueueVisit(s, sched, w, k);
    RunKeeps(s, sched);
    RunKeeps(s, sched');
    sched' := DequeueVisit(s, sched', w, k);
    RunKeeps(s, sched');
  }

  // ---- Two writers ----

  // The second writer may be the first reader, come back in another role.
  ghost predicate Quartet(s: Service.State, sched: seq<Choice>, w: nat, r1: nat, r2: nat, w2: nat) {
    && Rests(s, sched) && T.Distinct(Run(s, sched).sync.s3, w, r1, r2)
    && w2 < Threads(Run(s, sched).sync) && w2 != w && w2 != r2
  }

  // The calls of the meeting.
  function Meeting(w: nat, r1: nat, r2: nat, w2: nat): seq<(nat, Role)> {
    T.Cycle(w, r1, r2) + [(w2, WriterRole)]
  }

  lemma WriterAndReadersCome(rest: P.State, w: nat, r1: nat, r2: nat) returns (r: L.Trail)
    requires P.Resting(rest) && T.Distinct(rest, w, r1, r2)
    ensures L.From(rest, r) && r.end == T.LinedUp(rest, w, r1, r2) && NoWriterLeaves(rest, r.sched)
    ensures r.calls == [(w, WriterRole), (r1, ReaderRole), (r2, ReaderRole)]
  {
    r := T.ThreeLineUp(rest, w, r1, r2);
    assert r.calls == [] + [(w, WriterRole)] + [(r1, ReaderRole)] + [(r2, ReaderRole)];
    CountAppend([], (w, WriterRole), CallsWriter);
    CountAppend([] + [(w, WriterRole)], (r1, ReaderRole), CallsWriter);
    CountAppend([] + [(w, WriterRole)] + [(r1, ReaderRole)], (r2, ReaderRole), CallsWriter);
    CountAtLeastOne(r.end.pcs, w, WriterBound);
    NoneHasLeft(rest, r.sched);
  }

  // Thread w is in to write while threads r1 and r2 queue up to read.
  lemma ThreeComeIn(s: Service.State, sched: seq<Choice>, w: nat, r1: nat, r2: nat) returns (sched': seq<Choice>)
    requires Rests(s, sched) && T.Distinct(Run(s, sched).sync.s3, w, r1, r2)
    ensures CanRun(s, sched') && Run(s, sched').sync == S3(T.LinedUp(Run(s, sched).sync.s3, w, r1, r2))
    ensures Calls(sched') == Calls(sched) + [(w, WriterRole), (r1, ReaderRole), (r2, ReaderRole)]
    ensures Settled(Run(s, sched').board.jobs, Enqueue(0)) && SameQueue(Run(s, sched).board, Run(s, sched').board)
  {
    RestsFree(s, sched);
    var p := Run(s, sched).sync.s3;
    var r := WriterAndReadersCome(p, w, r1, r2);
    sched' := QuietRun(s, sched, p, r.sched, Enqueue(0));
  }

  lemma ReadersReady(s: Service.State, w: nat, op: Op, op': Op)
    requires Inv(s) && Settled(s.board.jobs, op) && !op.Peek?
    requires forall t :: 0 <= t < Threads(s.sync) && t != w ==>
                           ZoneOf(s.sync, t) == Outside || ZoneOf(s.sync, t) == Entering(ReaderRole)
    ensures forall t :: 0 <= t < |s.board.jobs| && t != w ==> Ready(s.board.jobs[t], op')
  {
    forall t | 0 <= t < |s.board.jobs| && t != w
      ensures Ready(s.board.jobs[t], op')
    {
      assert Agrees(ZoneOf(s.sync, t), s.board.jobs[t]) && Ready(s.board.jobs[t], op);
    }
  }

  // It stores the number 0.
  lemma WriterWrites(s: Service.State, sched: seq<Choice>, w: nat, r1: nat, r2: nat, k: nat)
    returns (sched': seq<Choice>)
    requires Rests(s, sched) && T.Distinct(Run(s, sched).sync.s3, w, r1, r2) && EmptyAt(Run(s, sched).board.board, k)
    ensures CanRun(s, sched') && Run(s, sched').sync == S3(T.LinedUp(Run(s, sched).sync.s3, w, r1, r2))
    ensures Calls(sched') == Calls(sched) + [(w, WriterRole), (r1, ReaderRole), (r2, ReaderRole)]
    ensures ZeroAt(Run(s, sched').board.board, k) && Stocked(Run(s, sched).board, Run(s, sched').board, [0], [])
    ensures var jobs := Run(s, sched').board.jobs;
            && Paired(Run(s, sched')) && jobs[w].Running? && jobs[w].at.Done?
            && forall t :: 0 <= t < |jobs| && t != w ==> Ready(jobs[t], Dequeue)
  {
    sched' := ThreeComeIn(s, sched, w, r1, r2);
    RunKeeps(s, sched');
    var here := Run(s, sched');
    assert Agrees(ZoneOf(here.sync, w), here.board.jobs[w]) && Ready(here.board.jobs[w], Enqueue(0));
    ReadersReady(here, w, Enqueue(0), Dequeue);
    sched' := StoresZero(s, sched', w, k);
  }

  lemma StoresZero(s: Service.State, sched: seq<Choice>, w: nat, k: nat) returns (sched': seq<Choice>)
    requires Begins(s, sched, w, Enqueue(0)) && EmptyAt(Run(s, sched).board.board, k)
    ensures CanRun(s, sched') && Calls(sched') == Calls(sched) && Run(s, sched').sync == Run(s, sched).sync
    ensures ZeroAt(Run(s, sched').board.board, k) && Stocked(Run(s, sched).board, Run(s, sched').board, [0], [])
    ensures var jobs, jobs' := Run(s, sched).board.jobs, Run(s, sched').board.jobs;
            && Paired(Run(s, sched')) && |jobs'| == |jobs| && jobs'[w].Running? && jobs'[w].at.Done?
            && forall t :: 0 <= t < |jobs| && t != w ==> jobs'[t] == jobs[t]
  {
    LogAppend(Run(s, sched).board.log, Event(w, Enqueue(0), Stored));
    sched' := Enqueues(s, sched, w, 0);
  }

  // Since b, these items have been accepted and delivered.
  ghost predicate Stocked(b: Kboard.State, b': Kboard.State, accepted: seq<int>, delivered: seq<int>) {
    && Cap(b') == Cap(b)
    && Accepted(b'.log) == Accepted(b.log) + accepted
    && Delivered(b'.log) == Delivered(b.log) + delivered
  }

  // And starts to leave.
  lemma NumberIsStored(s: Service.State, sched: seq<Choice>, w: nat, r1: nat, r2: nat, k: nat)
    returns (sched': seq<Choice>)
    requires Rests(s, sched) && T.Distinct(Run(s, sched).sync.s3, w, r1, r2) && EmptyAt(Run(s, sched).board.board, k)
    ensures CanRun(s, sched') && Calls(sched') == Calls(sched) + [(w, WriterRole), (r1, ReaderRole), (r2, ReaderRole)]
    ensures ZeroAt(Run(s, sched').board.board, k) && Stocked(Run(s, sched).board, Run(s, sched').board, [0], [])
    ensures Settled(Run(s, sched').board.jobs, Dequeue)
    ensures var p := T.LinedUp(Run(s, sched).sync.s3, w, r1, r2);
            Run(s, sched').sync == S3(p.(pcs := p.pcs[w := P.LeaveWriter(P.WDown)]))
  {
    sched' := WriterWrites(s, sched, w, r1, r2, k);
    RunKeeps(s, sched');
    LeavesInside(Run(s, sched').sync, w);
    sched' := SettledStep(s, sched', w, Dequeue);
  }

  lemma UntilWoken(rest: P.State, p: P.State, w: nat, r1: nat, r2: nat) returns (r: L.Trail)
    requires P.Resting(rest) && T.Distinct(rest, w, r1, r2)
    requires p == T.LinedUp(rest, w, r1, r2).(pcs := T.LinedUp(rest, w, r1, r2).pcs[w := P.LeaveWriter(P.WDown)])
    ensures L.From(p, r) && r.calls == [(w, WriterRole)] && r.end == T.BothWoken(rest, w, r1, r2)
  {
    r := T.WriterServes(p, L.Trail([], p, []), rest, w, r1, r2);
    r := T.ReaderPasses(p, r, rest, w, r1, r2);
    r := T.WriterIsWoken(p, r, rest, w, r1, r2);
  }

  lemma NobodyBound(rest: P.State, p: P.State, w: nat, r1: nat, r2: nat)
    requires P.Resting(rest) && T.Distinct(rest, w, r1, r2)
    requires p.pcs == T.LinedUp(rest, w, r1, r2).pcs[w := P.LeaveWriter(P.WDown)]
    ensures forall i :: 0 <= i < |p.pcs| ==> !WriterBound(p.pcs[i])
  {
  }

  lemma MeetingTrail(rest: P.State, p: P.State, w: nat, r1: nat, r2: nat, w2: nat) returns (r: L.Trail)
    requires P.Resting(rest) && T.Distinct(rest, w, r1, r2) && w2 < |rest.pcs| && w2 != w && w2 != r2
    requires p == T.LinedUp(rest, w, r1, r2).(pcs := T.LinedUp(rest, w, r1, r2).pcs[w := P.LeaveWriter(P.WDown)])
    ensures L.From(p, r) && r.calls == [(w, WriterRole), (w2, WriterRole)] && NoWriterLeaves(p, r.sched)
    ensures r.end.pcs == rest.pcs[w := P.In(WriterRole)][w2 := P.In(WriterRole)]
  {
    NobodyBound(rest, p, w, r1, r2);
    r := UntilWoken(rest, p, w, r1, r2);
    r := T.TwoWritersEnter(p, r, rest, w, r1, r2, w2);
    WriterCalls(w, w2);
    if w < w2 {
      CountAtLeastTwo(r.end.pcs, w, w2, WriterBound);
    } else {
      CountAtLeastTwo(r.end.pcs, w2, w, WriterBound);
    }
    NoneHasLeft(p, r.sched);
  }

  // Threads w and w2 are inside together, both to take the one number in the ring.
  lemma BothComeToDequeue(s: Service.State, sched: seq<Choice>, w: nat, r1: nat, r2: nat, w2: nat, k: nat)
    returns (sched': seq<Choice>)
    requires Quartet(s, sched, w, r1, r2, w2) && EmptyAt(Run(s, sched).board.board, k)
    ensures Begins(s, sched', w, Dequeue) && Begins(s, sched', w2, Dequeue)
    ensures Run(s, sched').sync.S3?
    ensures ZoneOf(Run(s, sched').sync, w) == ZoneOf(Run(s, sched').sync, w2) == Inside(WriterRole)
    ensures Calls(sched') == Calls(sched) + Meeting(w, r1, r2, w2)
    ensures ZeroAt(Run(s, sched').board.board, k) && Stocked(Run(s, sched).board, Run(s, sched').board, [0], [])
    ensures OthersFree(Run(s, sched').board.jobs, w, w2)
  {
    var rest := Run(s, sched).sync.s3;
    sched' := NumberIsStored(s, sched, w, r1, r2, k);
    var stored := sched';
    var r := MeetingTrail(rest, Run(s, stored).sync.s3, w, r1, r2, w2);
    sched' := TheyComeIn(s, stored, r, rest, w, w2);
    MeetingIs(Calls(sched), w, r1, r2, w2);
  }

  lemma MeetingIs(calls: seq<(nat, Role)>, w: nat, r1: nat, r2: nat, w2: nat)
    ensures calls + [(w, WriterRole), (r1, ReaderRole), (r2, ReaderRole)] + [(w, WriterRole), (w2, WriterRole)] ==
            calls + Meeting(w, r1, r2, w2)
  {
  }

  lemma TheyComeIn(s: Service.State, sched: seq<Choice>, r: L.Trail, rest: P.State, w: nat, w2: nat)
    returns (sched': seq<Choice>)
    requires Inv(s) && CanRun(s, sched) && Run(s, sched).sync.S3? && Settled(Run(s, sched).board.jobs, Dequeue)
    requires L.From(Run(s, sched).sync.s3, r) && NoWriterLeaves(Run(s, sched).sync.s3, r.sched)
    requires P.Resting(rest) && w < |rest.pcs| && w2 < |rest.pcs|
    requires r.end.pcs == rest.pcs[w := P.In(WriterRole)][w2 := P.In(WriterRole)]
    ensures Begins(s, sched', w, Dequeue) && Begins(s, sched', w2, Dequeue) && Run(s, sched').sync == S3(r.end)
    ensures Calls(sched') == Calls(sched) + r.calls && SameQueue(Run(s, sched).board, Run(s, sched').board)
    ensures OthersFree(Run(s, sched').board.jobs, w, w2)
  {
    sched' := QuietRun(s, sched, Run(s, sched).sync.s3, r.sched, Dequeue);
    RunKeeps(s, sched');
    OnlyTheyAreIn(Run(s, sched'), rest, w, w2);
  }

  lemma OnlyTheyAreIn(s: Service.State, rest: P.State, w: nat, w2: nat)
    requires Inv(s) && s.sync.S3? && P.Resting(rest) && w < |rest.pcs| && w2 < |rest.pcs|
    requires s.sync.s3.pcs == rest.pcs[w := P.In(WriterRole)][w2 := P.In(WriterRole)]
    requires Settled(s.board.jobs, Dequeue)
    ensures forall t :: 0 <= t < |s.board.jobs| ==>
              if t == w || t == w2 then s.board.jobs[t] == Running(Dequeue, LoadPerform) else s.board.jobs[t].Free?
  {
    forall t | 0 <= t < |s.board.jobs|
      ensures if t == w || t == w2 then s.board.jobs[t] == Running(Dequeue, LoadPerform) else s.board.jobs[t].Free?
    {
      assert Agrees(ZoneOf(s.sync, t), s.board.jobs[t]) && Ready(s.board.jobs[t], Dequeue);
    }
  }

  // Both take it, and everybody leaves: the number accepted once has been delivered twice, and
  // RingBufferCount is -1.
  lemma TakenTwice(s: Service.State, sched: seq<Choice>, w: nat, r1: nat, r2: nat, w2: nat, k: nat)
    returns (sched': seq<Choice>)
    requires Quartet(s, sched, w, r1, r2, w2) && EmptyAt(Run(s, sched).board.board, k)
    ensures Rests(s, sched') && Calls(sched') == Calls(sched) + Meeting(w, r1, r2, w2)
    ensures Stocked(Run(s, sched).board, Run(s, sched').board, [0], [0, 0])
    ensures Overdrawn(Run(s, sched').board.board, k)
  {
    sched' := BothComeToDequeue(s, sched, w, r1, r2, w2, k);
    sched' := BothDequeue(s, sched', w, w2, k);
    sched' := Empties(s, sched');
  }

  // Both take what is at the index before either clears it.
  lemma BothDequeue(s: Service.State, sched: seq<Choice>, i: nat, j: nat, k: nat) returns (sched': seq<Choice>)
    requires Begins(s, sched, i, Dequeue) && Begins(s, sched, j, Dequeue) && i != j
    requires ZeroAt(Run(s, sched).board.board, k) && OthersFree(Run(s, sched).board.jobs, i, j)
    ensures CanRun(s, sched') && Calls(sched') == Calls(sched) && Run(s, sched').sync == Run(s, sched).sync
    ensures NobodyWorks(Run(s, sched').board.jobs) && Stocked(Run(s, sched).board, Run(s, sched').board, [], [0, 0])
    ensures Overdrawn(Run(s, sched').board.board, k)
  {
    sched' := Takes(s, sched, i);
    sched' := Takes(s, sched', j);
    OverdrawnBoard(Run(s, sched').board.board, k);
    sched' := BothRemove(s, sched', i, j, 0);
  }

  // One removal too many, from index k.
  ghost predicate Overdrawn(b: Board, k: nat) {
    |b.ring| > 0 && b.count == -1 && b.index == Ring.Remainder(Ring.Remainder(k + 1, |b.ring|) + 1, |b.ring|)
  }

  function RemovedTwice(b: Board): Board
    requires InBounds(b)
  {
    WithNextIndex(Cleared(WithNextIndex(Cleared(b))))
  }

  lemma OverdrawnBoard(b: Board, k: nat)
    requires ZeroAt(b, k)
    ensures Overdrawn(RemovedTwice(b), k)
  {
  }

  lemma BothRemove(s: Service.State, sched: seq<Choice>, i: nat, j: nat, item: int) returns (sched': seq<Choice>)
    requires Working(s, sched, i) && Working(s, sched, j) && i != j
    requires var b := Run(s, sched).board;
             && b.jobs[i] == b.jobs[j] == Running(Dequeue, ClearSlot(item))
             && InBounds(b.board) && OthersFree(b.jobs, i, j)
    ensures CanRun(s, sched') && Calls(sched') == Calls(sched) && Run(s, sched').sync == Run(s, sched).sync
    ensures NobodyWorks(Run(s, sched').board.jobs)
    ensures Stocked(Run(s, sched).board, Run(s, sched').board, [], [item, item])
    ensures Run(s, sched').board.board == RemovedTwice(Run(s, sched).board.board)
  {
    var log := Run(s, sched).board.log;
    sched' := Removes(s, sched, i, item);
    sched' := Removes(s, sched', j, item);
    LogAppend(log, Event(i, Dequeue, Removed(item)));
    LogAppend(log + [Event(i, Dequeue, Removed(item))], Event(j, Dequeue, Removed(item)));
  }

  // After that the next writer computes an address in front of the ring, if the index is 0: line 480 lets
  // it pass, and -1 % n is -1 unless n is 1.
  lemma AddressStrays(s: Service.State, sched: seq<Choice>, w: nat) returns (sched': seq<Choice>)
    requires Rests(s, sched) && w < Threads(Run(s, sched).sync)
    requires Run(s, sched).board.board.count == -1 && Run(s, sched).board.board.index == 0
    requires Cap(Run(s, sched).board) >= 2
    ensures CanRun(s, sched') && Calls(sched') == Calls(sched) + [(w, WriterRole)] && w < |Run(s, sched').board.jobs|
    ensures Run(s, sched').board.jobs[w] == Running(Enqueue(0), FillSlot(-1))
  {
    sched' := WriterGoesIn(s, sched, w, Enqueue(0));
    Ring.Wrapped(1, Cap(Run(s, sched).board));
    sched' := Picks(s, sched', w, 0);
  }
}
