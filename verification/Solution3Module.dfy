// What the protocol of SYNC_SOLUTION 3 can do is exactly what the module running it can do: runs
// translate both ways, so the exact conditions for exclusion, and for leaving no token behind, hold
// of the module itself.
module Solution3Module {
  import opened Counting
  import opened Zones
  import opened Fifo
  import opened Service
  import opened ServiceRuns
  import opened ServiceCalls
  import Kboard
  import P = Solution3
  import R = Solution3Runs
  import E = Solution3Exclusion
  import T = Solution3Threads

  // Never two threads on the reader's side at once, at any point of the run.
  ghost predicate OneReaderAtATime(s: State, sched: seq<Choice>)
    requires CanRun(s, sched)
  {
    && Run(s, sched).sync.S3?
    && Count(Run(s, sched).sync.s3.pcs, T.Reading) <= 1
    && (sched == [] || OneReaderAtATime(s, sched[..|sched| - 1]))
  }

  // What a choice of the module's scheduler is for the protocol: one step, or none.
  function Translate(c: Choice): seq<R.Choice> {
    match c
    case Call(t, op) => if Kboard.Rejected(op) then [] else [R.Arrival(t, Kboard.RoleOf(op))]
    case Step(t) => [R.Advance(t)]
    case Work(_) => []
  }

  function ProtocolSteps(sched: seq<Choice>): seq<R.Choice> {
    if sched == [] then [] else ProtocolSteps(sched[..|sched| - 1]) + Translate(sched[|sched| - 1])
  }

  lemma ProtocolStep(s: State, c: Choice)
    requires Inv(s) && CanDo(s, c) && s.sync.S3?
    ensures Do(s, c).sync.S3?
    ensures var step, p, p' := Translate(c), s.sync.s3, Do(s, c).sync.s3;
            if step == [] then p' == p && !Unsafe(s, c)
            else R.CanDo(p, step[0]) && p' == R.Do(p, step[0]) && (E.UnsafeChoice(p, step[0]) <==> Unsafe(s, c))
  {
  }

  // Every run of the module is a run of the protocol, by the same callers and as safe as it.
  lemma {:induction false} ProtocolRun(s: State, sched: seq<Choice>)
    requires Inv(s) && s.sync.S3? && CanRun(s, sched)
    ensures Run(s, sched).sync.S3? && R.CanRun(s.sync.s3, ProtocolSteps(sched))
    ensures R.Run(s.sync.s3, ProtocolSteps(sched)) == Run(s, sched).sync.s3
    ensures R.Arrivals(ProtocolSteps(sched)) == Calls(sched)
  {
    if sched != [] {
      var before, c := sched[..|sched| - 1], sched[|sched| - 1];
      ProtocolRun(s, before);
      RunKeeps(s, before);
      ProtocolStep(Run(s, before), c);
      OneMore(s.sync.s3, ProtocolSteps(before), c);
      OneMoreArrival(ProtocolSteps(before), c);
    }
  }

  // Translating one choice more.
  lemma OneMore(p: P.State, steps: seq<R.Choice>, c: Choice)
    requires R.CanRun(p, steps) && (Translate(c) != [] ==> R.CanDo(R.Run(p, steps), Translate(c)[0]))
    ensures R.CanRun(p, steps + Translate(c))
    ensures R.Run(p, steps + Translate(c)) ==
            (if Translate(c) == [] then R.Run(p, steps) else R.Do(R.Run(p, steps), Translate(c)[0]))
    ensures E.SafeRun(p, steps + Translate(c)) <==>
              E.SafeRun(p, steps) && (Translate(c) == [] || !E.UnsafeChoice(R.Run(p, steps), Translate(c)[0]))
  {
    var more := Translate(c);
    if more == [] {
      assert steps + more == steps;
    } else {
      assert more == [more[0]];
      E.Then(p, steps, more[0]);
    }
  }

  lemma OneMoreArrival(steps: seq<R.Choice>, c: Choice)
    ensures R.Arrivals(steps + Translate(c)) ==
            R.Arrivals(steps) + (if c.Call? && !Kboard.Rejected(c.op) then [(c.tid, Kboard.RoleOf(c.op))] else [])
  {
    R.ArrivalsConcat(steps, Translate(c));
  }

  lemma {:induction false} ProtocolRunSafe(s: State, sched: seq<Choice>)
    requires Inv(s) && s.sync.S3? && CanRun(s, sched)
    ensures R.CanRun(s.sync.s3, ProtocolSteps(sched))
    ensures E.SafeRun(s.sync.s3, ProtocolSteps(sched)) <==> SafeRun(s, sched)
  {
    ProtocolRun(s, sched);
    if sched != [] {
      var before, c := sched[..|sched| - 1], sched[|sched| - 1];
      ProtocolRun(s, before);
      ProtocolRunSafe(s, before);
      RunKeeps(s, before);
      ProtocolStep(Run(s, before), c);
      OneMore(s.sync.s3, ProtocolSteps(before), c);
    }
  }

  lemma {:induction false} OneReaderProtocolRun(s: State, sched: seq<Choice>)
    requires Inv(s) && s.sync.S3? && CanRun(s, sched) && OneReaderAtATime(s, sched)
    ensures R.CanRun(s.sync.s3, ProtocolSteps(sched)) && T.OneReaderRun(s.sync.s3, ProtocolSteps(sched))
  {
    ProtocolRun(s, sched);
    if sched != [] {
      var before, step := sched[..|sched| - 1], Translate(sched[|sched| - 1]);
      OneReaderProtocolRun(s, before);
      assert ProtocolSteps(sched)[..|ProtocolSteps(before)|] == ProtocolSteps(before);
      if step == [] { assert ProtocolSteps(sched) == ProtocolSteps(before); }
    }
  }

  lemma ModuleArrival(s: State, sched: seq<Choice>, t: nat, op: Op) returns (sched': seq<Choice>)
    requires CanRun(s, sched) && Inv(Run(s, sched)) && Run(s, sched).sync.S3?
    requires t < Threads(Run(s, sched).sync) && Run(s, sched).sync.s3.pcs[t].Idle? && !Kboard.Rejected(op)
    ensures CanRun(s, sched') && Run(s, sched').sync == S3(P.Arrive(Run(s, sched).sync.s3, t, Kboard.RoleOf(op)))
    ensures var b := Run(s, sched).board; Run(s, sched').board == b.(jobs := b.jobs[t := Kboard.Waiting(op)])
    ensures Calls(sched') == Calls(sched) + [(t, Kboard.RoleOf(op))]
  {
    CallExactlyWhenOutside(Run(s, sched), t, op);
    sched' := Then(s, sched, Call(t, op));
  }

  // One step of the protocol, taken by the module.
  lemma ModuleStep(s: State, sched: seq<Choice>, e: R.Choice) returns (sched': seq<Choice>)
    requires CanRun(s, sched) && Inv(Run(s, sched)) && Run(s, sched).sync.S3? && R.CanDo(Run(s, sched).sync.s3, e)
    ensures CanRun(s, sched') && Run(s, sched').sync == S3(R.Do(Run(s, sched).sync.s3, e))
    ensures Calls(sched') == Calls(sched) + (if e.Arrival? then [(e.tid, e.role)] else [])
  {
    if e.Arrival? {
      var op := AnOp(e.role);
      sched' := ModuleArrival(s, sched, e.tid, op);
    } else {
      sched' := AdvancesWithProtocol(s, sched, e.tid);
      sched' := sched' + [Step(e.tid)];
    }
  }

  // An operation of each role.
  function AnOp(role: Role): (op: Op)
    ensures Kboard.RoleOf(op) == role && !Kboard.Rejected(op)
  {
    if role.WriterRole? then Dequeue else Peek(0)
  }

  // Every run of the protocol is what some run of the module does, with the same callers.
  lemma {:induction false} ModuleRun(s: State, steps: seq<R.Choice>) returns (sched: seq<Choice>)
    requires Inv(s) && s.sync.S3? && R.CanRun(s.sync.s3, steps)
    ensures CanRun(s, sched) && Run(s, sched).sync == S3(R.Run(s.sync.s3, steps))
    ensures Calls(sched) == R.Arrivals(steps)
  {
    if steps == [] {
      sched := [];
    } else {
      sched := ModuleRun(s, steps[..|steps| - 1]);
      RunKeeps(s, sched);
      sched := ModuleStep(s, sched, steps[|steps| - 1]);
    }
  }

  // ---- Safe runs and overlaps ----

  lemma {:induction false} FirstUnsafe(s: State, sched: seq<Choice>) returns (k: nat)
    requires CanRun(s, sched) && !SafeRun(s, sched)
    ensures k < |sched| && CanRun(s, sched[..k]) && SafeRun(s, sched[..k])
    ensures CanDo(Run(s, sched[..k]), sched[k]) && Unsafe(Run(s, sched[..k]), sched[k])
  {
    var last := |sched| - 1;
    if SafeRun(s, sched[..last]) {
      k := last;
    } else {
      k := FirstUnsafe(s, sched[..last]);
      assert sched[..last][..k] == sched[..k];
    }
  }

  // A run that is not safe, followed up to and including its first unsafe wake, can go on from there
  // without new calls until a writer and a reader are in their critical sections together.
  lemma UnsafeRunOverlaps(s: State, sched: seq<Choice>) returns (k: nat, sched': seq<Choice>)
    requires IsInit(s) && s.sync.S3? && CanRun(s, sched) && !SafeRun(s, sched)
    ensures k < |sched| && CanRun(s, sched[..k]) && SafeRun(s, sched[..k])
    ensures Unsafe(Run(s, sched[..k]), sched[k])
    ensures sched[..k + 1] <= sched' && Calls(sched') == Calls(sched[..k + 1])
    ensures CanRun(s, sched') && Overlap(ZonesOf(Run(s, sched').sync))
  {
    k := FirstUnsafe(s, sched);
    SafeRunKeeps(s, sched[..k]);
    var here, c := Run(s, sched[..k]), sched[k];
    var steps := E.UnsafeWakeOverlaps(here.sync.s3, c.tid);
    StepKeeps(here, c);
    var more := ModuleRun(Do(here, c), steps);
    CutAndContinue(s, sched, k, more);
    sched' := sched[..k + 1] + more;
  }

  ghost predicate ExcludesInEveryRun(s: State) {
    forall sched :: CanRun(s, sched) ==> Exclusive(ZonesOf(Run(s, sched).sync))
  }

  ghost predicate SafeInEveryRun(s: State) {
    forall sched :: CanRun(s, sched) ==> SafeRun(s, sched)
  }

  // The module under Solution 3 excludes in every run if and only if no run executes line 395 while
  // a reader token is outstanding.
  lemma ExclusionExactlyWhenSafe(s: State)
    requires IsInit(s) && s.sync.S3?
    ensures ExcludesInEveryRun(s) <==> SafeInEveryRun(s)
  {
    if SafeInEveryRun(s) {
      forall sched | CanRun(s, sched)
        ensures Exclusive(ZonesOf(Run(s, sched).sync))
      {
        MutualExclusion(s, sched);
      }
    } else {
      var sched :| CanRun(s, sched) && !SafeRun(s, sched);
      var _, sched' := UnsafeRunOverlaps(s, sched);
      OverlapExcluded(ZonesOf(Run(s, sched').sync));
    }
  }

  // With at most one reader at a time and any number of writers, Solution 3 excludes, the answers
  // are those of the atomic queue, and nothing is left behind when everybody has left.
  lemma OneReaderExcludes(s: State, sched: seq<Choice>)
    requires IsInit(s) && s.sync.S3? && CanRun(s, sched) && OneReaderAtATime(s, sched)
    ensures SafeRun(s, sched) && Exclusive(ZonesOf(Run(s, sched).sync))
    ensures AtomicHistory(Run(s, sched).board)
    ensures Stuck(Run(s, sched)) ==> Run(s, sched).sync == Fresh(s.sync, Threads(s.sync))
  {
    InitSafe(s);
    ProtocolRun(s, sched);
    OneReaderProtocolRun(s, sched);
    T.OneReaderRunIsSafe(s.sync.s3, ProtocolSteps(sched));
    ProtocolRunSafe(s, sched);
    MutualExclusion(s, sched);
    Linearizable(s, sched);
    if Stuck(Run(s, sched)) { DrainedIsReset(s, sched); }
  }

  // ---- How many threads ----

  ghost predicate ResetsInEveryRun(s: State) {
    forall sched :: CanRun(s, sched) && Stuck(Run(s, sched)) ==> Run(s, sched).sync == Fresh(s.sync, Threads(s.sync))
  }

  lemma TwoThreadsAreSafe(s: State, sched: seq<Choice>)
    requires IsInit(s) && s.sync.S3? && CanRun(s, sched) && Threads(s.sync) <= 2
    ensures SafeRun(s, sched)
  {
    InitSafe(s);
    ProtocolRunSafe(s, sched);
    T.TwoThreadRunIsSafe(s.sync.s3, ProtocolSteps(sched));
  }

  // The run of Solution3Threads in which a writer and a reader meet, as a run of the module.
  lemma ModuleOverlap(s: State, w: nat, r1: nat, r2: nat) returns (sched: seq<Choice>)
    requires Inv(s) && s.sync.S3? && P.Resting(s.sync.s3) && T.Distinct(s.sync.s3, w, r1, r2)
    ensures CanRun(s, sched) && Calls(sched) == T.Cycle(w, r1, r2)
    ensures Overlap(ZonesOf(Run(s, sched).sync)) && !Exclusive(ZonesOf(Run(s, sched).sync))
  {
    var r := T.ThreeThreadsOverlap(s.sync.s3, w, r1, r2);
    sched := ModuleRun(s, r.sched);
    OverlapExcluded(ZonesOf(Run(s, sched).sync));
  }

  // The run in which a token is left behind, as a run of the module.
  lemma ModuleTokenLeft(s: State, w: nat, r1: nat, r2: nat) returns (sched: seq<Choice>)
    requires Inv(s) && s.sync.S3? && P.Resting(s.sync.s3) && T.Distinct(s.sync.s3, w, r1, r2)
    ensures CanRun(s, sched) && Calls(sched) == T.Cycle(w, r1, r2) && Stuck(Run(s, sched))
    ensures Run(s, sched).sync == S3(s.sync.s3.(reader := s.sync.s3.reader + 1))
  {
    var r := T.TokenLeftBehind(s.sync.s3, w, r1, r2);
    sched := ModuleRun(s, r.sched);
    RunKeeps(s, sched);
    StuckExactlyWhenOutside(Run(s, sched));
  }

  // The module under Solution 3 excludes in every run if and only if it has at most two threads.
  lemma ExclusionIffTwoThreads(s: State)
    requires IsInit(s) && s.sync.S3?
    ensures ExcludesInEveryRun(s) <==> Threads(s.sync) <= 2
  {
    InitInv(s);
    if Threads(s.sync) <= 2 {
      forall sched | CanRun(s, sched)
        ensures Exclusive(ZonesOf(Run(s, sched).sync))
      {
        TwoThreadsAreSafe(s, sched);
        MutualExclusion(s, sched);
      }
    } else {
      var sched := ModuleOverlap(s, 0, 1, 2);
    }
  }

  // And every semaphore is back at its initial value whenever nobody is left, in every run, if and
  // only if it has at most two threads.
  lemma ResetIffTwoThreads(s: State)
    requires IsInit(s) && s.sync.S3?
    ensures ResetsInEveryRun(s) <==> Threads(s.sync) <= 2
  {
    InitInv(s);
    if Threads(s.sync) <= 2 {
      forall sched | CanRun(s, sched) && Stuck(Run(s, sched))
        ensures Run(s, sched).sync == Fresh(s.sync, Threads(s.sync))
      {
        TwoThreadsAreSafe(s, sched);
        DrainedIsReset(s, sched);
      }
    } else {
      var sched := ModuleTokenLeft(s, 0, 1, 2);
    }
  }

  // With three threads or more there is no run, safe or not, that cannot be continued to an overlap.
  lemma EveryRunCanOverlap(s: State, sched: seq<Choice>) returns (sched': seq<Choice>)
    requires IsInit(s) && s.sync.S3? && CanRun(s, sched) && Threads(s.sync) >= 3
    ensures sched <= sched' && CanRun(s, sched') && Overlap(ZonesOf(Run(s, sched').sync))
  {
    InitInv(s);
    var out := CanFinish(s, sched);
    RunKeeps(s, out);
    SameProtocol(s, out);
    SyncAtRest(Run(s, out).sync);
    var more := ModuleOverlap(Run(s, out), 0, 1, 2);
    RunConcat(s, out, more);
    sched' := out + more;
  }

  // ---- Threads that keep to one role ----

  ghost predicate ExcludesFor(s: State, roles: seq<Role>) {
    forall sched :: CanRun(s, sched) && Cast(roles, Calls(sched)) ==> Exclusive(ZonesOf(Run(s, sched).sync))
  }

  ghost predicate ResetsFor(s: State, roles: seq<Role>) {
    forall sched :: CanRun(s, sched) && Cast(roles, Calls(sched)) && Stuck(Run(s, sched)) ==>
                      Run(s, sched).sync == Fresh(s.sync, Threads(s.sync))
  }

  lemma HarmlessIsSafe(s: State, sched: seq<Choice>, roles: seq<Role>)
    requires IsInit(s) && s.sync.S3? && CanRun(s, sched)
    requires |roles| == Threads(s.sync) && Cast(roles, Calls(sched)) && T.Harmless(roles)
    ensures SafeRun(s, sched)
  {
    InitSafe(s);
    ProtocolRun(s, sched);
    T.HarmlessRunIsSafe(s.sync.s3, ProtocolSteps(sched), roles);
    ProtocolRunSafe(s, sched);
  }

  // Two readers and a writer can be told to play the run that breaks exclusion.
  lemma NotHarmless(roles: seq<Role>) returns (w: nat, r1: nat, r2: nat)
    requires !T.Harmless(roles)
    ensures w < |roles| && r1 < |roles| && r2 < |roles| && w != r1 && w != r2 && r1 != r2
    ensures Cast(roles, T.Cycle(w, r1, r2))
  {
    r1, r2 := CountTwoWitnesses(roles, Is(ReaderRole));
    w := CountWitness(roles, Is(WriterRole));
  }

  // When each thread only reads or only writes, the module under Solution 3 excludes in every run if
  // and only if at most one of them reads or none of them writes.
  lemma ExclusionIffHarmless(s: State, roles: seq<Role>)
    requires IsInit(s) && s.sync.S3? && |roles| == Threads(s.sync)
    ensures ExcludesFor(s, roles) <==> Count(roles, Is(ReaderRole)) <= 1 || Count(roles, Is(WriterRole)) == 0
  {
    InitInv(s);
    if T.Harmless(roles) {
      forall sched | CanRun(s, sched) && Cast(roles, Calls(sched))
        ensures Exclusive(ZonesOf(Run(s, sched).sync))
      {
        HarmlessIsSafe(s, sched, roles);
        MutualExclusion(s, sched);
      }
    } else {
      var w, r1, r2 := NotHarmless(roles);
      var sched := ModuleOverlap(s, w, r1, r2);
    }
  }

  // And under the same condition no token is left behind.
  lemma ResetIffHarmless(s: State, roles: seq<Role>)
    requires IsInit(s) && s.sync.S3? && |roles| == Threads(s.sync)
    ensures ResetsFor(s, roles) <==> Count(roles, Is(ReaderRole)) <= 1 || Count(roles, Is(WriterRole)) == 0
  {
    InitInv(s);
    if T.Harmless(roles) {
      forall sched | CanRun(s, sched) && Cast(roles, Calls(sched)) && Stuck(Run(s, sched))
        ensures Run(s, sched).sync == Fresh(s.sync, Threads(s.sync))
      {
        HarmlessIsSafe(s, sched, roles);
        DrainedIsReset(s, sched);
      }
    } else {
      var w, r1, r2 := NotHarmless(roles);
      var sched := ModuleTokenLeft(s, w, r1, r2);
    }
  }
}
