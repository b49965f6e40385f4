// What holds in every run of the module, for each of the three protocols.
module ServiceRuns {
  import opened Counting
  import opened Zones
  import opened Fifo
  import opened Service
  import Kboard
  import Linearization
  import Switch
  import Solution1
  import Solution2
  import Solution3
  import Solution3Exclusion

  // ---- Every run, exclusive or not ----

  // After a change of one thread's place and one request, protocol and board still agree.
  lemma Repaired(s: State, s': State, t: nat)
    requires Inv(s) && Paired(s') && t < Threads(s.sync) == Threads(s'.sync)
    requires SyncInv(s'.sync)
    requires forall i :: 0 <= i < Threads(s.sync) && i != t ==> ZoneOf(s'.sync, i) == ZoneOf(s.sync, i)
    requires s'.board.jobs == s.board.jobs[t := s'.board.jobs[t]] && Kboard.Cap(s'.board) == Kboard.Cap(s.board)
    requires Kboard.InBounds(s'.board.board)
    requires Agrees(ZoneOf(s'.sync, t), s'.board.jobs[t]) && Kboard.JobFits(Kboard.Cap(s.board), s'.board.jobs[t])
    ensures Inv(s')
  {
    forall i | 0 <= i < Threads(s'.sync)
      ensures Agrees(ZoneOf(s'.sync, i), s'.board.jobs[i]) && Kboard.JobFits(Kboard.Cap(s'.board), s'.board.jobs[i])
    {
      if i != t {
        assert Agrees(ZoneOf(s.sync, i), s.board.jobs[i]) && Kboard.JobFits(Kboard.Cap(s.board), s.board.jobs[i]);
      }
    }
  }

  lemma CallKeeps(s: State, t: nat, op: Op)
    requires Inv(s) && CanDo(s, Call(t, op))
    ensures Inv(Do(s, Call(t, op))) && Threads(Do(s, Call(t, op)).sync) == Threads(s.sync)
  {
    if !Kboard.Rejected(op) {
      ArriveKeeps(s.sync, t, Kboard.RoleOf(op));
      Repaired(s, Do(s, Call(t, op)), t);
    }
  }

  lemma SyncStepKeeps(s: State, t: nat)
    requires Inv(s) && CanDo(s, Step(t))
    ensures Inv(Do(s, Step(t))) && Threads(Do(s, Step(t)).sync) == Threads(s.sync)
  {
    GoKeeps(s.sync, t);
    assert Agrees(ZoneOf(s.sync, t), s.board.jobs[t]) && Kboard.JobFits(Kboard.Cap(s.board), s.board.jobs[t]);
    Repaired(s, Do(s, Step(t)), t);
  }

  lemma WorkKeeps(s: State, t: nat)
    requires Inv(s) && CanDo(s, Work(t))
    ensures Inv(Do(s, Work(t)))
  {
    Kboard.AccessStaysWellFormed(s.board, t);
    assert Agrees(ZoneOf(s.sync, t), s.board.jobs[t]);
    Repaired(s, Do(s, Work(t)), t);
  }

  lemma StepKeeps(s: State, c: Choice)
    requires Inv(s) && CanDo(s, c)
    ensures Inv(Do(s, c)) && Threads(Do(s, c).sync) == Threads(s.sync)
    ensures Kboard.Cap(Do(s, c).board) == Kboard.Cap(s.board)
  {
    match c
    case Call(t, op) => CallKeeps(s, t, op);
    case Step(t) => SyncStepKeeps(s, t);
    case Work(t) => WorkKeeps(s, t);
  }

  lemma InitInv(s: State)
    requires IsInit(s)
    ensures Inv(s)
  {
    var n := |s.board.jobs|;
    Solution1.InitInv(n);
    Solution2.InitInv(n);
    Solution3.InitInv(n);
  }

  lemma {:induction false} RunKeeps(s: State, sched: seq<Choice>)
    requires Inv(s) && CanRun(s, sched)
    ensures Inv(Run(s, sched)) && Threads(Run(s, sched).sync) == Threads(s.sync)
    ensures Kboard.Cap(Run(s, sched).board) == Kboard.Cap(s.board)
  {
    if sched != [] {
      RunKeeps(s, sched[..|sched| - 1]);
      StepKeeps(Run(s, sched[..|sched| - 1]), sched[|sched| - 1]);
    }
  }

  ghost predicate Owned(sync: Sync) {
    match sync
    case S1(p) =>
      && p.mutex + Count(Solution1.Readers(p.pcs), Switch.HoldsMutex) == 1
      && p.writer + Count(p.pcs, Solution1.WriterHolds) + Bit(Switch.Held(p.readerCount, Solution1.Readers(p.pcs))) == 1
      && p.readerCount == Count(Solution1.Readers(p.pcs), Switch.Counted)
    case S2(p) =>
      && p.writerMutex + Count(Solution2.Writers(p.pcs), Switch.HoldsMutex) == 1
      && p.readerMutex + Count(Solution2.Readers(p.pcs), Switch.HoldsMutex) == 1
      && p.reader + Count(p.pcs, Solution2.InGate) + Bit(Solution2.GateClosed(p)) == 1
      && p.writer + Count(p.pcs, Solution2.WriterHolds) + Bit(Switch.Held(p.readerCount, Solution2.Readers(p.pcs))) == 1
      && p.writerCount == Count(Solution2.Writers(p.pcs), Switch.Counted)
      && p.readerCount == Count(Solution2.Readers(p.pcs), Switch.Counted)
      && (p.writerMutex == 1 ==> (Solution2.GateClosed(p) <==> p.writerCount > 0))
    case S3(p) => Solution3.Exact(p)
  }

  // Who owns what, at every micro-step of every run. Solutions 1 and 2: every semaphore, the mutexes
  // included, has one unit, which is free or has exactly one owner, a thread or a group. Solution 3:
  // so it is for the mutex. In all three, each counter is the number of threads at its points.
  lemma Ownership(s: State, sched: seq<Choice>)
    requires IsInit(s) && CanRun(s, sched)
    ensures Owned(Run(s, sched).sync)
  {
    InitInv(s);
    RunKeeps(s, sched);
    match Run(s, sched).sync
    case S1(_) =>
    case S2(p) => Solution2.GateOwnership(p);
    case S3(_) =>
  }

  // Thread by thread, the log holds the answers returned so far and the one that is fixed: in every
  // run, exclusive or not.
  lemma {:induction false} RunRecorded(s: State, sched: seq<Choice>)
    requires IsInit(s) && CanRun(s, sched)
    ensures Linearization.Recorded(Run(s, sched).board)
  {
    if sched == [] {
      Linearization.InitInv(Kboard.Cap(s.board), |s.board.jobs|);
    } else {
      var here := Run(s, sched[..|sched| - 1]);
      RunRecorded(s, sched[..|sched| - 1]);
      match sched[|sched| - 1]
      case Call(t, op) =>
        if Kboard.Rejected(op) {
          Linearization.RejectRecorded(here.board, t, op.item);
        } else {
          Linearization.CallRecorded(here.board, t, op);
        }
      case Step(t) => Linearization.MoveRecorded(here.board, t, ZoneOf(Go(here.sync, t), t));
      case Work(t) => Linearization.AccessRecorded(here.board, t);
    }
  }

  // ---- Safe runs ----

  ghost predicate SyncExcludes(sync: Sync) {
    SyncInv(sync) && (sync.S3? ==> Solution3Exclusion.ExclusionInv(sync.s3))
  }

  ghost predicate SafeInv(s: State) {
    Inv(s) && SyncExcludes(s.sync)
  }

  lemma InitSafe(s: State)
    requires IsInit(s)
    ensures SafeInv(s)
  {
    InitInv(s);
    Solution3Exclusion.InitExclusion(|s.board.jobs|);
  }

  lemma Exclusion(sync: Sync)
    requires SyncExcludes(sync)
    ensures Exclusive(ZonesOf(sync))
  {
    match sync
    case S1(s) => Solution1.Exclusion(s);
    case S2(s) => Solution2.Exclusion(s);
    case S3(s) => Solution3Exclusion.Exclusion(s);
  }

  lemma SafeStepKeeps(s: State, c: Choice)
    requires SafeInv(s) && CanDo(s, c) && !Unsafe(s, c)
    ensures SafeInv(Do(s, c))
  {
    StepKeeps(s, c);
    if s.sync.S3? {
      match c
      case Call(t, op) =>
        if !Kboard.Rejected(op) {
          Solution3Exclusion.ArriveKeepsExclusion(s.sync.s3, t, Kboard.RoleOf(op));
        }
      case Step(t) => Solution3Exclusion.SafeStepKeeps(s.sync.s3, t);
      case Work(_) =>
    }
  }

  lemma {:induction false} SafeRunKeeps(s: State, sched: seq<Choice>)
    requires IsInit(s) && CanRun(s, sched) && SafeRun(s, sched)
    ensures SafeInv(Run(s, sched))
  {
    if sched == [] {
      InitSafe(s);
    } else {
      SafeRunKeeps(s, sched[..|sched| - 1]);
      SafeStepKeeps(Run(s, sched[..|sched| - 1]), sched[|sched| - 1]);
    }
  }

  // Mutual exclusion: in every run of Solutions 1 and 2, and in every safe run of Solution 3, there
  // are never two writers in their critical sections, nor a writer and a reader.
  lemma MutualExclusion(s: State, sched: seq<Choice>)
    requires IsInit(s) && CanRun(s, sched)
    requires s.sync.S3? ==> SafeRun(s, sched)
    ensures Exclusive(ZonesOf(Run(s, sched).sync))
  {
    if !s.sync.S3? { EveryRunOfSolutions12IsSafe(s, sched); }
    SafeRunKeeps(s, sched);
    Exclusion(Run(s, sched).sync);
  }

  // ---- Runs in which two writers are never inside together, and the queue ----

  // Never two threads of the role inside together, at any point of the run.
  ghost predicate SoleRun(s: State, sched: seq<Choice>, role: Role)
    requires CanRun(s, sched)
  {
    Sole(ZonesOf(Run(s, sched).sync), role) && (sched == [] || SoleRun(s, sched[..|sched| - 1], role))
  }

  ghost predicate Sole(zones: seq<Zone>, role: Role) {
    forall i, j :: 0 <= i < |zones| && 0 <= j < |zones| && zones[i] == zones[j] == Inside(role) ==> i == j
  }

  // Safe runs are such runs. So are the runs of Solution 3 in which no more than one thread writes, safe
  // or not (ServiceCounts.OneOfRoleIsSole).
  lemma {:induction false} SafeRunHasSoleWriter(s: State, sched: seq<Choice>)
    requires IsInit(s) && CanRun(s, sched) && SafeRun(s, sched)
    ensures SoleRun(s, sched, WriterRole)
  {
    SafeRunKeeps(s, sched);
    Exclusion(Run(s, sched).sync);
    if sched != [] { SafeRunHasSoleWriter(s, sched[..|sched| - 1]); }
  }

  ghost predicate WritersApart(s: State, sched: seq<Choice>)
    requires CanRun(s, sched)
  {
    !s.sync.S3? || SafeRun(s, sched) || SoleRun(s, sched, WriterRole)
  }

  lemma ApartIsSole(s: State, sched: seq<Choice>)
    requires IsInit(s) && CanRun(s, sched) && WritersApart(s, sched)
    ensures SoleRun(s, sched, WriterRole)
  {
    if !s.sync.S3? { EveryRunOfSolutions12IsSafe(s, sched); }
    if SafeRun(s, sched) { SafeRunHasSoleWriter(s, sched); }
  }

  lemma SoleMeansSolitary(s: State)
    requires Inv(s) && Sole(ZonesOf(s.sync), WriterRole)
    ensures Kboard.Solitary(s.board.jobs)
  {
    var zones := ZonesOf(s.sync);
    forall i | 0 <= i < |zones|
      ensures Agrees(zones[i], s.board.jobs[i])
    {
      assert Agrees(ZoneOf(s.sync, i), s.board.jobs[i]);
    }
  }

  lemma QueueStepKeeps(s: State, c: Choice)
    requires Inv(s) && CanDo(s, c) && Linearization.Inv(s.board)
    requires Kboard.Solitary(s.board.jobs) && Kboard.Solitary(Do(s, c).board.jobs)
    ensures Linearization.Inv(Do(s, c).board)
  {
    match c
    case Call(t, op) =>
      if Kboard.Rejected(op) {
        Linearization.RejectKeeps(s.board, t, op.item);
      } else {
        Linearization.JobChanges(s.board, t, Kboard.Waiting(op));
      }
    case Step(t) => Linearization.MoveKeeps(s.board, t, ZoneOf(Go(s.sync, t), t));
    case Work(t) => Linearization.AccessKeeps(s.board, t);
  }

  lemma {:induction false} SoleRunKeeps(s: State, sched: seq<Choice>)
    requires IsInit(s) && CanRun(s, sched) && SoleRun(s, sched, WriterRole)
    ensures Linearization.Inv(Run(s, sched).board)
  {
    if sched == [] {
      Linearization.InitInv(Kboard.Cap(s.board), |s.board.jobs|);
    } else {
      var before := sched[..|sched| - 1];
      SoleRunKeeps(s, before);
      InitInv(s);
      RunKeeps(s, before);
      RunKeeps(s, sched);
      SoleMeansSolitary(Run(s, before));
      SoleMeansSolitary(Run(s, sched));
      QueueStepKeeps(Run(s, before), sched[|sched| - 1]);
    }
  }

  // The log is a history of the atomic queue: every answer in it is the right one after those before it,
  // deliveries are first-in first-out, and thread by thread it is the
  // answers the thread has returned with, followed by the one it is about to return with.
  ghost predicate AtomicHistory(b: Kboard.State) {
    && Kboard.Cap(b) > 0
    && Replay(Kboard.Cap(b), b.log).Legal?
    && AllRight(Kboard.Cap(b), b.log)
    && Delivered(b.log) <= Accepted(b.log)
    && |b.past| == |b.jobs|
    && forall t :: 0 <= t < |b.jobs| ==> Answers(b.log, t) == b.past[t] + Linearization.Pending(b.jobs[t])
  }

  // Linearizability: the answers fixed so far, in the order in which the requests took effect, are a
  // history of the atomic bounded queue, and every thread has been given its own answers in its own
  // order. So deliveries are a prefix of the accepted items, in order. Readers may be inside with a
  // writer meanwhile.
  lemma Linearizable(s: State, sched: seq<Choice>)
    requires IsInit(s) && CanRun(s, sched) && WritersApart(s, sched)
    ensures Kboard.Cap(Run(s, sched).board) == Kboard.Cap(s.board)
    ensures AtomicHistory(Run(s, sched).board)
  {
    ApartIsSole(s, sched);
    SoleRunKeeps(s, sched);
    InitInv(s);
    RunKeeps(s, sched);
    RunRecorded(s, sched);
    FirstInFirstOut(Kboard.Cap(s.board), Run(s, sched).board.log);
    LegalExactlyWhenRight(Kboard.Cap(s.board), Run(s, sched).board.log);
  }

  // Each step of a run is a step of the atomic queue by the same thread, or none at all: the log grows
  // by at most one answer, of the thread that steps, inside its own request.
  lemma LogGrowsWithinCall(s: State, c: Choice)
    requires Inv(s) && CanDo(s, c)
    ensures var b, b' := s.board, Do(s, c).board;
            b'.log == b.log ||
            (exists e :: b'.log == b.log + [e] && e.tid == c.tid &&
                         (c == Call(c.tid, e.op) || (c.Work? && b.jobs[c.tid].Running? && b.jobs[c.tid].op == e.op)))
  {
    var b, b' := s.board, Do(s, c).board;
    if b'.log != b.log {
      var e := b'.log[|b.log|];
      assert b'.log == b.log + [e];
    }
  }

  // The addresses computed at line 487 that have not been used yet are addresses of the ring.
  ghost predicate InRange(b: Kboard.State) {
    forall t :: 0 <= t < |b.jobs| && b.jobs[t].Running? && b.jobs[t].at.FillSlot? ==>
                  0 <= b.jobs[t].at.slot < Kboard.Cap(b)
  }

  // They are as long as two writers are never inside together, and always in a ring of one slot.
  lemma AddressInRange(s: State, sched: seq<Choice>)
    requires IsInit(s) && CanRun(s, sched) && (WritersApart(s, sched) || Kboard.Cap(s.board) == 1)
    ensures InRange(Run(s, sched).board)
  {
    var b := Run(s, sched).board;
    InitInv(s);
    RunKeeps(s, sched);
    if WritersApart(s, sched) {
      ApartIsSole(s, sched);
      SoleRunKeeps(s, sched);
    }
    forall t | 0 <= t < |b.jobs| && b.jobs[t].Running? && b.jobs[t].at.FillSlot?
      ensures 0 <= b.jobs[t].at.slot < Kboard.Cap(b)
    {
      assert Kboard.JobFits(Kboard.Cap(b), b.jobs[t]);
      if WritersApart(s, sched) { Linearization.AddressInRange(b, t); }
    }
  }

  // ---- No deadlock ----

  predicate AllOutside(s: State) {
    forall t :: 0 <= t < Threads(s.sync) ==> ZoneOf(s.sync, t).Outside?
  }

  lemma SyncProgress(sync: Sync) returns (t: nat)
    requires SyncInv(sync) && exists i :: 0 <= i < Threads(sync) && !ZoneOf(sync, i).Outside?
    ensures t < Threads(sync) && !ZoneOf(sync, t).Outside? && CanGo(sync, t)
  {
    match sync
    case S1(s) => t := Solution1.Progress(s);
    case S2(s) => t := Solution2.Progress(s);
    case S3(s) => t := Solution3.Progress(s);
  }

  lemma Progress(s: State) returns (c: Choice)
    requires Inv(s) && !AllOutside(s)
    ensures !c.Call? && CanDo(s, c)
  {
    var t := SyncProgress(s.sync);
    GoKeeps(s.sync, t);
    assert Agrees(ZoneOf(s.sync, t), s.board.jobs[t]);
    if Kboard.CanMove(s.board, t, ZoneOf(Go(s.sync, t), t)) {
      c := Step(t);
    } else {
      Kboard.AccessStaysWellFormed(s.board, t);
      c := Work(t);
    }
  }

  // In every run of each protocol, also one of Solution 3 in which exclusion fails: as long as some
  // thread is in the module, some such thread can step.
  lemma NoDeadlock(s: State, sched: seq<Choice>)
    requires IsInit(s) && CanRun(s, sched) && !AllOutside(Run(s, sched))
    ensures exists c: Choice :: !c.Call? && CanDo(Run(s, sched), c)
  {
    InitInv(s);
    RunKeeps(s, sched);
    var c := Progress(Run(s, sched));
  }

  // Readers share, in each of the three protocols.
  lemma ReadersShare(sync: Sync, t: nat)
    requires SyncInv(sync) && t < Threads(sync) && AmongReaders(ZonesOf(sync), t)
    requires ZoneOf(sync, t) == Entering(ReaderRole)
    ensures CanGo(sync, t)
  {
    match sync
    case S1(s) => Solution1.ReadersShare(s, t);
    case S2(s) => Solution2.ReadersShare(s, t);
    case S3(s) => Solution3.ReadersShare(s, t);
  }

  // ---- Draining ----

  function SyncLeft(sync: Sync): nat {
    match sync
    case S1(s) => Sum(s.pcs, Solution1.Rank)
    case S2(s) => Sum(s.pcs, Solution2.Rank)
    case S3(s) => Sum(s.pcs, Solution3.Ranks(|s.pcs|))
  }

  // The steps the threads in the module can still take, at most.
  function StepsLeft(s: State): nat {
    SyncLeft(s.sync) + Sum(s.board.jobs, Kboard.WorkLeft)
  }

  lemma GoDescends(sync: Sync, t: nat)
    requires SyncInv(sync) && t < Threads(sync) && CanGo(sync, t)
    ensures SyncLeft(Go(sync, t)) < SyncLeft(sync)
  {
    match sync
    case S1(s) =>
      SumUpdate(s.pcs, t, Solution1.Go(s, t).pcs[t], Solution1.Rank);
      Solution1.GoDescends(s, t);
    case S2(s) =>
      SumUpdate(s.pcs, t, Solution2.Go(s, t).pcs[t], Solution2.Rank);
      Solution2.GoDescends(s, t);
    case S3(s) =>
      SumUpdate(s.pcs, t, Solution3.Go(s, t).pcs[t], Solution3.Ranks(|s.pcs|));
      Solution3.GoDescends(s, t);
  }

  lemma StepDescends(s: State, c: Choice)
    requires Inv(s) && CanDo(s, c) && !c.Call?
    ensures StepsLeft(Do(s, c)) < StepsLeft(s)
  {
    var t, jobs' := c.tid, Do(s, c).board.jobs;
    assert jobs' == s.board.jobs[t := jobs'[t]];
    SumUpdate(s.board.jobs, t, jobs'[t], Kboard.WorkLeft);
    if c.Step? {
      GoDescends(s.sync, t);
    } else {
      Kboard.AccessStaysWellFormed(s.board, t);
    }
  }

  predicate NoCalls(sched: seq<Choice>) {
    forall i :: 0 <= i < |sched| ==> !sched[i].Call?
  }

  // Without new calls a run is no longer than the steps its threads had left.
  lemma {:induction false} Draining(s: State, sched: seq<Choice>)
    requires Inv(s) && CanRun(s, sched) && NoCalls(sched)
    ensures |sched| + StepsLeft(Run(s, sched)) <= StepsLeft(s)
  {
    if sched != [] {
      var before := sched[..|sched| - 1];
      Draining(s, before);
      RunKeeps(s, before);
      StepDescends(Run(s, before), sched[|sched| - 1]);
    }
  }

  // Every run can be continued without new calls until everybody is outside.
  lemma {:induction false} CanFinish(s: State, sched: seq<Choice>) returns (sched': seq<Choice>)
    requires Inv(s) && CanRun(s, sched)
    ensures sched <= sched' && CanRun(s, sched') && Calls(sched') == Calls(sched)
    ensures NoCalls(sched'[|sched|..]) && AllOutside(Run(s, sched'))
    decreases StepsLeft(Run(s, sched))
  {
    var here := Run(s, sched);
    if AllOutside(here) {
      sched' := sched;
    } else {
      RunKeeps(s, sched);
      var c := Progress(here);
      StepDescends(here, c);
      var one := Then(s, sched, c);
      sched' := CanFinish(s, one);
      NoCallsPrepend(sched, c, sched');
    }
  }

  lemma NoCallsPrepend(sched: seq<Choice>, c: Choice, sched': seq<Choice>)
    requires sched + [c] <= sched' && !c.Call? && NoCalls(sched'[|sched| + 1..])
    ensures sched <= sched' && NoCalls(sched'[|sched|..])
  {
    assert (sched + [c])[..|sched|] == sched;
    assert sched'[|sched|..] == [c] + sched'[|sched| + 1..];
  }

  // The protocol with nobody in it: back at its initial state, up to unused tokens in Solution 3.
  ghost predicate Reset(sync: Sync, n: nat) {
    match sync
    case S1(s) => s == Solution1.Init(n)
    case S2(s) => s == Solution2.Init(n)
    case S3(s) => s == Solution3.Init(n).(writer := s.writer, reader := s.reader)
  }

  lemma SyncAtRest(sync: Sync)
    requires SyncInv(sync) && forall t :: 0 <= t < Threads(sync) ==> ZoneOf(sync, t).Outside?
    ensures Reset(sync, Threads(sync))
    ensures SyncExcludes(sync) ==> sync == Fresh(sync, Threads(sync))
  {
    match sync
    case S1(s) =>
      forall i | 0 <= i < |s.pcs| ensures s.pcs[i].Idle? { assert ZoneOf(sync, i).Outside?; }
      Solution1.AtRest(s);
    case S2(s) =>
      forall i | 0 <= i < |s.pcs| ensures s.pcs[i].Idle? { assert ZoneOf(sync, i).Outside?; }
      Solution2.AtRest(s);
    case S3(s) =>
      forall i | 0 <= i < |s.pcs| ensures s.pcs[i].Idle? { assert ZoneOf(sync, i).Outside?; }
      Solution3.AtRest(s);
      if SyncExcludes(sync) { Solution3Exclusion.AtRestExactly(s); }
  }

  // Nothing can happen without a new call.
  ghost predicate Stuck(s: State) {
    forall c: Choice :: !c.Call? ==> !CanDo(s, c)
  }

  // Without a new call something can happen exactly as long as there is a thread in the module.
  lemma StuckExactlyWhenOutside(s: State)
    requires Inv(s)
    ensures Stuck(s) <==> AllOutside(s)
  {
    if AllOutside(s) {
      forall c: Choice | !c.Call?
        ensures !CanDo(s, c)
      {
        assert c.tid < Threads(s.sync) ==> ZoneOf(s.sync, c.tid).Outside?;
      }
    } else {
      var c := Progress(s);
    }
  }

  // A run that cannot go on without a new call has let everybody out; the counters are 0, and every
  // semaphore is back at its initial value, in Solution 3 provided the run was safe.
  lemma DrainedIsReset(s: State, sched: seq<Choice>)
    requires IsInit(s) && CanRun(s, sched)
    requires Stuck(Run(s, sched))
    ensures AllOutside(Run(s, sched))
    ensures Reset(Run(s, sched).sync, Threads(s.sync))
    ensures !s.sync.S3? || SafeRun(s, sched) ==> Run(s, sched).sync == Fresh(s.sync, Threads(s.sync))
  {
    var end := Run(s, sched);
    InitInv(s);
    RunKeeps(s, sched);
    StuckExactlyWhenOutside(end);
    SyncAtRest(end.sync);
    SameProtocol(s, sched);
    if !s.sync.S3? { EveryRunOfSolutions12IsSafe(s, sched); }
    if SafeRun(s, sched) { SafeRunKeeps(s, sched); }
  }

  lemma {:induction false} SameProtocol(s: State, sched: seq<Choice>)
    requires CanRun(s, sched)
    ensures Run(s, sched).sync.S1? == s.sync.S1? && Run(s, sched).sync.S2? == s.sync.S2?
  {
    if sched != [] {
      SameProtocol(s, sched[..|sched| - 1]);
    }
  }

  // ---- Roles ----

  lemma OnePlays(sync: Sync, sync': Sync, t: nat, roles: seq<Role>)
    requires Plays(roles, ZonesOf(sync)) && t < Threads(sync) == Threads(sync')
    requires forall i :: 0 <= i < Threads(sync) && i != t ==> ZoneOf(sync', i) == ZoneOf(sync, i)
    requires !ZoneOf(sync', t).Outside? ==> ZoneOf(sync', t).role == roles[t]
    ensures Plays(roles, ZonesOf(sync'))
  {
    forall i | 0 <= i < Threads(sync')
      ensures ZonesOf(sync')[i].Outside? || ZonesOf(sync')[i].role == roles[i]
    {
      assert ZonesOf(sync)[i] == ZoneOf(sync, i) && ZonesOf(sync')[i] == ZoneOf(sync', i);
    }
  }

  lemma StepPlays(s: State, c: Choice, roles: seq<Role>)
    requires Inv(s) && CanDo(s, c) && Plays(roles, ZonesOf(s.sync))
    requires c.Call? && !Kboard.Rejected(c.op) ==> Kboard.RoleOf(c.op) == roles[c.tid]
    ensures Plays(roles, ZonesOf(Do(s, c).sync))
  {
    match c
    case Call(t, op) =>
      if !Kboard.Rejected(op) {
        ArriveKeeps(s.sync, t, Kboard.RoleOf(op));
        OnePlays(s.sync, Do(s, c).sync, t, roles);
      }
    case Step(t) =>
      GoKeeps(s.sync, t);
      assert ZonesOf(s.sync)[t] == ZoneOf(s.sync, t);
      OnePlays(s.sync, Do(s, c).sync, t, roles);
    case Work(_) =>
  }

  // Threads that are only called in the roles they are cast in play no other.
  lemma {:induction false} RunPlays(s: State, sched: seq<Choice>, roles: seq<Role>)
    requires Inv(s) && CanRun(s, sched) && Plays(roles, ZonesOf(s.sync)) && Cast(roles, Calls(sched))
    ensures Plays(roles, ZonesOf(Run(s, sched).sync))
  {
    if sched != [] {
      var before, c := sched[..|sched| - 1], sched[|sched| - 1];
      CastEarlier(roles, sched);
      RunPlays(s, before, roles);
      RunKeeps(s, before);
      StepPlays(Run(s, before), c, roles);
    }
  }

  lemma CastEarlier(roles: seq<Role>, sched: seq<Choice>)
    requires Cast(roles, Calls(sched)) && sched != []
    ensures Cast(roles, Calls(sched[..|sched| - 1]))
    ensures var c := sched[|sched| - 1];
            c.Call? && !Kboard.Rejected(c.op) ==> c.tid < |roles| && Kboard.RoleOf(c.op) == roles[c.tid]
  {
    var earlier, c := Calls(sched[..|sched| - 1]), sched[|sched| - 1];
    if c.Call? && !Kboard.Rejected(c.op) {
      CastAppend(roles, earlier, (c.tid, Kboard.RoleOf(c.op)));
    } else {
      assert Calls(sched) == earlier;
    }
  }

  // ---- Solution 2: how many readers can overtake a waiting writer ----

  function S2Pcs(s: State): seq<Solution2.Pc> {
    if s.sync.S2? then s.sync.s2.pcs else []
  }

  // Nobody executes line 345.
  predicate NoReopening(s: State, sched: seq<Choice>)
    requires CanRun(s, sched)
  {
    sched == [] ||
    (var before, c := sched[..|sched| - 1], sched[|sched| - 1];
     NoReopening(s, before) &&
     !(c.Step? && Run(s, before).sync.S2? && Run(s, before).sync.s2.pcs[c.tid] == Solution2.Writer(Switch.Release)))
  }

  // A reader gets into its critical section.
  predicate ReaderEnters(s: State, c: Choice)
    requires CanDo(s, c)
  {
    && c.Step?
    && ZoneOf(s.sync, c.tid) == Entering(ReaderRole)
    && ZoneOf(Do(s, c).sync, c.tid) == Inside(ReaderRole)
  }

  function ReaderEntries(s: State, sched: seq<Choice>): nat
    requires CanRun(s, sched)
  {
    if sched == [] then 0
    else
      var before := sched[..|sched| - 1];
      ReaderEntries(s, before) + Bit(ReaderEnters(Run(s, before), sched[|sched| - 1]))
  }

  // No thread is past the gate and not yet inside that was not before.
  ghost predicate NoneAdded(pcs: seq<Solution2.Pc>, pcs': seq<Solution2.Pc>) {
    && |pcs'| == |pcs|
    && forall t :: 0 <= t < |pcs| && Solution2.PastGate(pcs'[t]) ==> Solution2.PastGate(pcs[t])
  }

  lemma ClosedGateStep(s: State, c: Choice)
    requires Inv(s) && CanDo(s, c) && s.sync.S2? && Solution2.GateClosed(s.sync.s2)
    ensures var pcs, pcs' := S2Pcs(s), S2Pcs(Do(s, c));
            && NoneAdded(pcs, pcs')
            && Count(pcs', Solution2.PastGate) + Bit(ReaderEnters(s, c)) == Count(pcs, Solution2.PastGate)
  {
    var pcs, pcs' := S2Pcs(s), S2Pcs(Do(s, c));
    if pcs' != pcs {
      CountUpdate(pcs, c.tid, pcs'[c.tid], Solution2.PastGate);
      assert pcs' == pcs[c.tid := pcs'[c.tid]];
    }
    if c.Step? {
      Solution2.ClosedGateStep(s.sync.s2, c.tid);
    }
  }

  lemma GateStaysClosed(s: State, c: Choice)
    requires Inv(s) && CanDo(s, c) && s.sync.S2? && Solution2.GateClosed(s.sync.s2)
    requires !(c.Step? && s.sync.s2.pcs[c.tid] == Solution2.Writer(Switch.Release))
    ensures Do(s, c).sync.S2? && Solution2.GateClosed(Do(s, c).sync.s2)
  {
    match c
    case Call(t, op) => Solution2.ArriveKeeps(s.sync.s2, t, Kboard.RoleOf(op));
    case Step(t) => Solution2.GateMoves(s.sync.s2, t);
    case Work(_) =>
  }

  // Bounded bypass: from the moment the writers hold the gate (line 274, by Solution2.GateMoves) and
  // until line 345 is executed, the readers past the gate and not yet inside only become fewer, and
  // each reader that gets in is one of them. So at most as many readers get in as had passed line
  // 308 when the gate closed.
  lemma {:induction false} BoundedBypass(s: State, sched: seq<Choice>)
    requires Inv(s) && s.sync.S2? && Solution2.GateClosed(s.sync.s2)
    requires CanRun(s, sched) && NoReopening(s, sched)
    ensures Run(s, sched).sync.S2? && Solution2.GateClosed(Run(s, sched).sync.s2)
    ensures NoneAdded(S2Pcs(s), S2Pcs(Run(s, sched)))
    ensures ReaderEntries(s, sched) + Count(S2Pcs(Run(s, sched)), Solution2.PastGate) ==
            Count(S2Pcs(s), Solution2.PastGate)
  {
    if sched != [] {
      var before := sched[..|sched| - 1];
      BoundedBypass(s, before);
      RunKeeps(s, before);
      ClosedGateStep(Run(s, before), sched[|sched| - 1]);
      GateStaysClosed(Run(s, before), sched[|sched| - 1]);
    }
  }

  // ---- Solution 3: how many readers can overtake a waiting writer ----

  // All through the run a writer waits, and nobody executes line 358.
  predicate WriterWaits(s: State, sched: seq<Choice>)
    requires CanRun(s, sched)
  {
    sched == [] ||
    (var here, c := Run(s, sched[..|sched| - 1]), sched[|sched| - 1];
     && WriterWaits(s, sched[..|sched| - 1])
     && here.sync.S3? && here.sync.s3.writersWaiting > 0
     && !(c.Step? && here.sync.s3.pcs[c.tid].LeaveWriter? && here.sync.s3.pcs[c.tid].w.Post?))
  }

  lemma OvertakersStep(s: State, c: Choice)
    requires CanDo(s, c) && s.sync.S3? && s.sync.s3.writersWaiting > 0
    requires !(c.Step? && s.sync.s3.pcs[c.tid].LeaveWriter? && s.sync.s3.pcs[c.tid].w.Post?)
    ensures Do(s, c).sync.S3?
    ensures Solution3.Overtakers(Do(s, c).sync.s3) + Bit(ReaderEnters(s, c)) == Solution3.Overtakers(s.sync.s3)
  {
    match c
    case Call(t, op) => Solution3.OvertakersArrive(s.sync.s3, t, Kboard.RoleOf(op));
    case Step(t) => Solution3.OvertakersStep(s.sync.s3, t);
    case Work(_) =>
  }

  // Bounded bypass: as long as a writer waits and no writer wakes readers at line 358, as many readers get in
  // as were at 328-329 or had a token at the start, less those that still are or have one.
  lemma {:induction false} BoundedBypassOfWaiting(s: State, sched: seq<Choice>)
    requires s.sync.S3? && CanRun(s, sched) && WriterWaits(s, sched)
    ensures Run(s, sched).sync.S3?
    ensures ReaderEntries(s, sched) + Solution3.Overtakers(Run(s, sched).sync.s3) == Solution3.Overtakers(s.sync.s3)
  {
    if sched != [] {
      var before := sched[..|sched| - 1];
      BoundedBypassOfWaiting(s, before);
      OvertakersStep(Run(s, before), sched[|sched| - 1]);
    }
  }
}
