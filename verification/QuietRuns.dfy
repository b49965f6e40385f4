// Runs of SYNC_SOLUTION 3 in which no writer finishes, as runs of the module: they leave the queue alone.
module QuietRuns {
  import opened Counting
  import opened Zones
  import opened Fifo
  import opened Kboard
  import opened Service
  import opened ServiceRuns
  import opened SectionRuns
  import M = Solution3Module
  import P = Solution3
  import R = Solution3Runs

  // A writer on its way in or inside.
  predicate WriterBound(pc: P.Pc) {
    P.ZoneAt(pc) == Entering(WriterRole) || P.ZoneAt(pc) == Inside(WriterRole)
  }

  predicate CallsWriter(call: (nat, Role)) {
    call.1.WriterRole?
  }

  predicate LeavesAsWriter(s: P.State, c: R.Choice) {
    c.Advance? && c.tid < |s.pcs| && s.pcs[c.tid] == P.In(WriterRole)
  }

  lemma BoundStep(s: P.State, c: R.Choice)
    requires R.CanDo(s, c)
    ensures Count(R.Do(s, c).pcs, WriterBound) + Bit(LeavesAsWriter(s, c)) ==
            Count(s.pcs, WriterBound) + Bit(c.Arrival? && c.role.WriterRole?)
  {
    CountUpdate(s.pcs, c.tid, R.Do(s, c).pcs[c.tid], WriterBound);
    if c.Advance? { P.LocalZone(s, s.pcs[c.tid]); }
  }

  lemma CallsAppend(steps: seq<R.Choice>)
    requires steps != []
    ensures var c := steps[|steps| - 1];
            Count(R.Arrivals(steps), CallsWriter) ==
            Count(R.Arrivals(steps[..|steps| - 1]), CallsWriter) + Bit(c.Arrival? && c.role.WriterRole?)
  {
    var earlier, c := R.Arrivals(steps[..|steps| - 1]), steps[|steps| - 1];
    if c.Arrival? {
      assert R.Arrivals(steps)[..|earlier|] == earlier;
    } else {
      assert R.Arrivals(steps) == earlier;
    }
  }

  // At most the writers that were bound for the inside and those that arrived are bound for it.
  lemma {:induction false} BoundRun(s: P.State, steps: seq<R.Choice>)
    requires R.CanRun(s, steps)
    ensures Count(R.Run(s, steps).pcs, WriterBound) <= Count(s.pcs, WriterBound) + Count(R.Arrivals(steps), CallsWriter)
  {
    if steps != [] {
      var before := steps[..|steps| - 1];
      BoundRun(s, before);
      BoundStep(R.Run(s, before), steps[|steps| - 1]);
      CallsAppend(steps);
    }
  }

  predicate NoWriterLeaves(s: P.State, steps: seq<R.Choice>)
    requires R.CanRun(s, steps)
  {
    steps == [] ||
    (NoWriterLeaves(s, steps[..|steps| - 1]) && !LeavesAsWriter(R.Run(s, steps[..|steps| - 1]), steps[|steps| - 1]))
  }

  // If all of them are, none has left.
  lemma {:induction false} BoundStillMeansNoneLeft(s: P.State, steps: seq<R.Choice>)
    requires R.CanRun(s, steps)
    requires Count(R.Run(s, steps).pcs, WriterBound) >=
             Count(s.pcs, WriterBound) + Count(R.Arrivals(steps), CallsWriter)
    ensures NoWriterLeaves(s, steps)
  {
    if steps != [] {
      var before := steps[..|steps| - 1];
      BoundRun(s, before);
      BoundStep(R.Run(s, before), steps[|steps| - 1]);
      CallsAppend(steps);
      BoundStillMeansNoneLeft(s, before);
    }
  }

  // Nobody inside has started to work; whoever writes does op, and whoever reads looks at slot 0.
  ghost predicate Settled(jobs: seq<Job>, op: Op) {
    forall t :: 0 <= t < |jobs| ==> Ready(jobs[t], op)
  }

  predicate Ready(job: Job, op: Op) {
    match job
    case Free => true
    case Waiting(o) => o == Peek(0) || o == op
    case Running(o, at) => (o == Peek(0) || o == op) && at.LoadPerform?
    case Finished(_, _) => true
  }

  // Nothing was enqueued or dequeued.
  ghost predicate SameQueue(b: Kboard.State, b': Kboard.State) {
    && b'.board.ring == b.board.ring && b'.board.count == b.board.count && b'.board.index == b.board.index
    && Accepted(b'.log) == Accepted(b.log) && Delivered(b'.log) == Delivered(b.log)
  }

  lemma LogAppend(log: seq<Event>, e: Event)
    ensures Accepted(log + [e]) == Accepted(log) + (if e.op.Enqueue? && e.response.Stored? then [e.op.item] else [])
    ensures Delivered(log + [e]) ==
            Delivered(log) + (if e.op.Dequeue? && e.response.Removed? then [e.response.item] else [])
  {
    assert (log + [e])[..|log|] == log;
  }

  // A reader inside finishes its work.
  lemma QuietPeek(s: Service.State, sched: seq<Choice>, t: nat, op: Op) returns (sched': seq<Choice>)
    requires Inv(s) && CanRun(s, sched) && Settled(Run(s, sched).board.jobs, op) && t < Threads(Run(s, sched).sync)
    requires ZoneOf(Run(s, sched).sync, t) == Inside(ReaderRole) && !op.Peek?
    ensures CanRun(s, sched') && Run(s, sched').sync == Run(s, sched).sync && Calls(sched') == Calls(sched)
    ensures SameQueue(Run(s, sched).board, Run(s, sched').board)
    ensures Paired(Run(s, sched')) && Run(s, sched').board.jobs[t].Running? && Run(s, sched').board.jobs[t].at.Done?
    ensures forall i :: 0 <= i < |Run(s, sched').board.jobs| && i != t ==> Ready(Run(s, sched').board.jobs[i], op)
  {
    RunKeeps(s, sched);
    var here := Run(s, sched);
    assert Agrees(ZoneOf(here.sync, t), here.board.jobs[t]) && Ready(here.board.jobs[t], op);
    var value;
    sched', value := Peeks(s, sched, t, 0);
    LogAppend(here.board.log, Event(t, Peek(0), Shown(value)));
  }

  lemma SettledStep(s: Service.State, sched: seq<Choice>, t: nat, op: Op) returns (sched': seq<Choice>)
    requires CanRun(s, sched) && Paired(Run(s, sched)) && t < Threads(Run(s, sched).sync) &&
             CanGo(Run(s, sched).sync, t)
    requires Threads(Go(Run(s, sched).sync, t)) == Threads(Run(s, sched).sync)
    requires forall i :: 0 <= i < |Run(s, sched).board.jobs| && i != t ==> Ready(Run(s, sched).board.jobs[i], op)
    requires var job, zone := Run(s, sched).board.jobs[t], ZoneOf(Go(Run(s, sched).sync, t), t);
             (Ready(job, op) && !zone.Leaving?) || (job.Running? && job.at.Done? && zone.Leaving?) || job.Finished?
    ensures CanRun(s, sched') && Run(s, sched').sync == Go(Run(s, sched).sync, t) && Calls(sched') == Calls(sched)
    ensures Settled(Run(s, sched').board.jobs, op) && SameQueue(Run(s, sched).board, Run(s, sched').board)
  {
    sched' := Then(s, sched, Step(t));
  }

  lemma LeavesInside(sync: Sync, t: nat)
    requires SyncInv(sync) && t < Threads(sync) && CanGo(sync, t) && ZoneOf(sync, t).Inside?
    ensures Threads(Go(sync, t)) == Threads(sync) && ZoneOf(Go(sync, t), t).Leaving?
  {
    GoKeeps(sync, t);
  }

  lemma QuietLeave(s: Service.State, sched: seq<Choice>, t: nat, op: Op) returns (sched': seq<Choice>)
    requires Inv(s) && CanRun(s, sched) && Settled(Run(s, sched).board.jobs, op) && t < Threads(Run(s, sched).sync)
    requires ZoneOf(Run(s, sched).sync, t) == Inside(ReaderRole) && CanGo(Run(s, sched).sync, t) && !op.Peek?
    ensures CanRun(s, sched') && Run(s, sched').sync == Go(Run(s, sched).sync, t) && Calls(sched') == Calls(sched)
    ensures Settled(Run(s, sched').board.jobs, op) && SameQueue(Run(s, sched).board, Run(s, sched').board)
  {
    var here := Run(s, sched);
    RunKeeps(s, sched);
    sched' := QuietPeek(s, sched, t, op);
    LeavesInside(here.sync, t);
    sched' := SettledStep(s, sched', t, op);
  }

  lemma QuietAdvance(s: Service.State, sched: seq<Choice>, t: nat, op: Op) returns (sched': seq<Choice>)
    requires Inv(s) && CanRun(s, sched) && Run(s, sched).sync.S3? && Settled(Run(s, sched).board.jobs, op)
    requires t < Threads(Run(s, sched).sync) && P.CanGo(Run(s, sched).sync.s3, t)
    requires Run(s, sched).sync.s3.pcs[t] != P.In(WriterRole) && !op.Peek?
    ensures CanRun(s, sched') && Run(s, sched').sync == S3(P.Go(Run(s, sched).sync.s3, t)) &&
            Calls(sched') == Calls(sched)
    ensures Settled(Run(s, sched').board.jobs, op) && SameQueue(Run(s, sched).board, Run(s, sched').board)
  {
    var here := Run(s, sched);
    if here.sync.s3.pcs[t].In? {
      assert here.sync.s3.pcs[t].role.ReaderRole?;
      sched' := QuietLeave(s, sched, t, op);
    } else {
      RunKeeps(s, sched);
      GoKeeps(here.sync, t);
      assert Agrees(ZoneOf(here.sync, t), here.board.jobs[t]) && Ready(here.board.jobs[t], op);
      sched' := SettledStep(s, sched, t, op);
    }
  }

  lemma QuietArrival(s: Service.State, sched: seq<Choice>, t: nat, role: Role, op: Op) returns (sched': seq<Choice>)
    requires Inv(s) && CanRun(s, sched) && Run(s, sched).sync.S3? && Settled(Run(s, sched).board.jobs, op)
    requires t < Threads(Run(s, sched).sync) && Run(s, sched).sync.s3.pcs[t].Idle? && !op.Peek? && !Rejected(op)
    ensures CanRun(s, sched') && Run(s, sched').sync == S3(P.Arrive(Run(s, sched).sync.s3, t, role))
    ensures Calls(sched') == Calls(sched) + [(t, role)]
    ensures Settled(Run(s, sched').board.jobs, op) && SameQueue(Run(s, sched).board, Run(s, sched').board)
  {
    RunKeeps(s, sched);
    sched' := M.ModuleArrival(s, sched, t, if role.WriterRole? then op else Peek(0));
  }

  lemma QuietStep(s: Service.State, sched: seq<Choice>, e: R.Choice, op: Op) returns (sched': seq<Choice>)
    requires Inv(s) && CanRun(s, sched) && Run(s, sched).sync.S3? && Settled(Run(s, sched).board.jobs, op)
    requires R.CanDo(Run(s, sched).sync.s3, e) && !op.Peek? && !Rejected(op)
    requires !LeavesAsWriter(Run(s, sched).sync.s3, e)
    ensures CanRun(s, sched') && Run(s, sched').sync == S3(R.Do(Run(s, sched).sync.s3, e))
    ensures Calls(sched') == Calls(sched) + (if e.Arrival? then [(e.tid, e.role)] else [])
    ensures Settled(Run(s, sched').board.jobs, op) && SameQueue(Run(s, sched).board, Run(s, sched').board)
  {
    if e.Arrival? {
      sched' := QuietArrival(s, sched, e.tid, e.role, op);
    } else {
      sched' := QuietAdvance(s, sched, e.tid, op);
    }
  }

  // sched' has led from where sched led to the protocol's state p, by these calls and without a change
  // of the queue.
  ghost predicate Quietly(s: Service.State, sched: seq<Choice>, sched': seq<Choice>,
                          p: P.State, calls: seq<(nat, Role)>, op: Op)
    requires CanRun(s, sched)
  {
    && CanRun(s, sched') && Run(s, sched').sync == S3(p) && Calls(sched') == Calls(sched) + calls
    && Settled(Run(s, sched').board.jobs, op) && SameQueue(Run(s, sched).board, Run(s, sched').board)
  }

  lemma QuietMore(s: Service.State, sched: seq<Choice>, sched1: seq<Choice>,
                  p: P.State, calls: seq<(nat, Role)>, e: R.Choice, op: Op)
    returns (sched2: seq<Choice>)
    requires Inv(s) && CanRun(s, sched) && Quietly(s, sched, sched1, p, calls, op)
    requires R.CanDo(p, e) && !LeavesAsWriter(p, e) && !op.Peek? && !Rejected(op)
    ensures Quietly(s, sched, sched2, R.Do(p, e), calls + (if e.Arrival? then [(e.tid, e.role)] else []), op)
  {
    sched2 := QuietStep(s, sched1, e, op);
  }

  // A run of the protocol in which no writer leaves, as a run of the module that leaves the queue alone.
  lemma {:induction false} QuietRun(s: Service.State, sched: seq<Choice>, p: P.State, steps: seq<R.Choice>, op: Op)
    returns (sched': seq<Choice>)
    requires Inv(s) && CanRun(s, sched) && Run(s, sched).sync == S3(p) && Settled(Run(s, sched).board.jobs, op)
    requires R.CanRun(p, steps) && NoWriterLeaves(p, steps) && !op.Peek? && !Rejected(op)
    ensures Quietly(s, sched, sched', R.Run(p, steps), R.Arrivals(steps), op)
  {
    if steps == [] {
      sched' := sched;
    } else {
      var before, e := steps[..|steps| - 1], steps[|steps| - 1];
      sched' := QuietRun(s, sched, p, before, op);
      sched' := QuietMore(s, sched, sched', R.Run(p, before), R.Arrivals(before), e, op);
    }
  }

  // Enough writers are bound for the inside at the end for none to have left.
  lemma NoneHasLeft(p: P.State, steps: seq<R.Choice>)
    requires R.CanRun(p, steps) && forall i :: 0 <= i < |p.pcs| ==> !WriterBound(p.pcs[i])
    requires Count(R.Arrivals(steps), CallsWriter) <= Count(R.Run(p, steps).pcs, WriterBound)
    ensures NoWriterLeaves(p, steps)
  {
    CountNone(p.pcs, WriterBound);
    BoundStillMeansNoneLeft(p, steps);
  }
}
