// The whole module of lab2: the board of Kboard behind one of the three protocols, with any number
// of threads, each free to call any operation again and again.
module Service {
  import opened Zones
  import opened Fifo
  import Kboard
  import Solution1
  import Solution2
  import Solution3
  import Solution3Exclusion

  // SYNC_SOLUTION selects one of the three protocols for good.
  datatype Sync = S1(s1: Solution1.State) | S2(s2: Solution2.State) | S3(s3: Solution3.State)

  datatype State = State(sync: Sync, board: Kboard.State)

  // KboardModuleInit: InitializeKboard and InitializeSyncSolution.
  predicate IsInit(s: State) {
    && Kboard.Cap(s.board) > 0
    && s.board == Kboard.Init(Kboard.Cap(s.board), |s.board.jobs|)
    && s.sync == Fresh(s.sync, |s.board.jobs|)
  }

  // The initial state of the protocol that sync runs.
  function Fresh(sync: Sync, n: nat): Sync {
    match sync
    case S1(_) => S1(Solution1.Init(n))
    case S2(_) => S2(Solution2.Init(n))
    case S3(_) => S3(Solution3.Init(n))
  }

  function Threads(sync: Sync): nat {
    match sync
    case S1(s) => |s.pcs|
    case S2(s) => |s.pcs|
    case S3(s) => |s.pcs|
  }

  function ZoneOf(sync: Sync, t: nat): Zone
    requires t < Threads(sync)
  {
    match sync
    case S1(s) => Solution1.ZoneAt(s.pcs[t])
    case S2(s) => Solution2.ZoneAt(s.pcs[t])
    case S3(s) => Solution3.ZoneAt(s.pcs[t])
  }

  function ZonesOf(sync: Sync): (z: seq<Zone>)
    ensures |z| == Threads(sync)
  {
    match sync
    case S1(s) => Solution1.ZonesOf(s)
    case S2(s) => Solution2.ZonesOf(s)
    case S3(s) => Solution3.ZonesOf(s)
  }

  function Arrive(sync: Sync, t: nat, role: Role): Sync
    requires t < Threads(sync)
  {
    match sync
    case S1(s) => S1(Solution1.Arrive(s, t, role))
    case S2(s) => S2(Solution2.Arrive(s, t, role))
    case S3(s) => S3(Solution3.Arrive(s, t, role))
  }

  predicate CanGo(sync: Sync, t: nat)
    requires t < Threads(sync)
  {
    match sync
    case S1(s) => Solution1.CanGo(s, t)
    case S2(s) => Solution2.CanGo(s, t)
    case S3(s) => Solution3.CanGo(s, t)
  }

  function Go(sync: Sync, t: nat): Sync
    requires t < Threads(sync) && CanGo(sync, t)
  {
    match sync
    case S1(s) => S1(Solution1.Go(s, t))
    case S2(s) => S2(Solution2.Go(s, t))
    case S3(s) => S3(Solution3.Go(s, t))
  }

  // ---- Steps ----

  datatype Choice =
    | Call(tid: nat, op: Op) // an idle thread calls an operation
    | Step(tid: nat)         // a thread takes the next step of its protocol
    | Work(tid: nat)         // a thread takes the next step of its critical section

  // In state s the two halves agree on the number of threads.
  predicate Paired(s: State) {
    |s.board.jobs| == |s.board.past| == Threads(s.sync)
  }

  predicate CanDo(s: State, c: Choice) {
    && Paired(s)
    && c.tid < Threads(s.sync)
    && match c
       case Call(t, _) => ZoneOf(s.sync, t).Outside? && s.board.jobs[t].Free?
       case Step(t) => CanGo(s.sync, t) && Kboard.CanMove(s.board, t, ZoneOf(Go(s.sync, t), t))
       case Work(t) => ZoneOf(s.sync, t).Inside? && Kboard.CanAccess(s.board, t)
  }

  function Do(s: State, c: Choice): State
    requires CanDo(s, c)
  {
    match c
    case Call(t, op) =>
      if Kboard.Rejected(op) then s.(board := Kboard.Reject(s.board, t, op.item))
      else State(Arrive(s.sync, t, Kboard.RoleOf(op)), s.board.(jobs := s.board.jobs[t := Kboard.Waiting(op)]))
    case Step(t) => State(Go(s.sync, t), Kboard.Move(s.board, t, ZoneOf(Go(s.sync, t), t)))
    case Work(t) => s.(board := Kboard.Access(s.board, t))
  }

  // ---- Runs: any interleaving of steps of any threads ----

  predicate CanRun(s: State, sched: seq<Choice>)
    decreases |sched|, 0
  {
    sched == [] || (CanRun(s, sched[..|sched| - 1]) && CanDo(Run(s, sched[..|sched| - 1]), sched[|sched| - 1]))
  }

  function Run(s: State, sched: seq<Choice>): State
    requires CanRun(s, sched)
    decreases |sched|, 1
  {
    if sched == [] then s else Do(Run(s, sched[..|sched| - 1]), sched[|sched| - 1])
  }

  // Who goes for the critical section, and as what, in order.
  function Calls(sched: seq<Choice>): seq<(nat, Role)> {
    if sched == [] then []
    else
      var c := sched[|sched| - 1];
      Calls(sched[..|sched| - 1]) + (if c.Call? && !Kboard.Rejected(c.op) then [(c.tid, Kboard.RoleOf(c.op))] else [])
  }

  lemma Then(s: State, sched: seq<Choice>, c: Choice) returns (sched': seq<Choice>)
    requires CanRun(s, sched) && CanDo(Run(s, sched), c)
    ensures sched' == sched + [c] && CanRun(s, sched') && Run(s, sched') == Do(Run(s, sched), c)
    ensures Calls(sched') ==
            Calls(sched) + (if c.Call? && !Kboard.Rejected(c.op) then [(c.tid, Kboard.RoleOf(c.op))] else [])
  {
    sched' := sched + [c];
    assert sched'[..|sched'| - 1] == sched;
  }

  lemma {:induction false} RunConcat(s: State, first: seq<Choice>, second: seq<Choice>)
    requires CanRun(s, first) && CanRun(Run(s, first), second)
    ensures CanRun(s, first + second) && Run(s, first + second) == Run(Run(s, first), second)
  {
    if second == [] {
      assert first + second == first;
    } else {
      RunConcat(s, first, second[..|second| - 1]);
      assert (first + second)[..|first + second| - 1] == first + second[..|second| - 1];
    }
  }

  lemma {:induction false} CallsConcat(first: seq<Choice>, second: seq<Choice>)
    ensures Calls(first + second) == Calls(first) + Calls(second)
  {
    if second == [] {
      assert first + second == first;
    } else {
      CallsConcat(first, second[..|second| - 1]);
      assert (first + second)[..|first + second| - 1] == first + second[..|second| - 1];
    }
  }

  // The first k steps of a schedule, the next one, and then another schedule.
  lemma CutAndContinue(s: State, sched: seq<Choice>, k: nat, more: seq<Choice>)
    requires k < |sched| && CanRun(s, sched[..k]) && CanDo(Run(s, sched[..k]), sched[k])
    requires CanRun(Do(Run(s, sched[..k]), sched[k]), more)
    ensures CanRun(s, sched[..k + 1] + more)
    ensures Run(s, sched[..k + 1] + more) == Run(Do(Run(s, sched[..k]), sched[k]), more)
    ensures sched[..k + 1] <= sched[..k + 1] + more
    ensures Calls(sched[..k + 1] + more) == Calls(sched[..k + 1]) + Calls(more)
  {
    assert sched[..k + 1][..k] == sched[..k];
    RunConcat(s, sched[..k + 1], more);
    CallsConcat(sched[..k + 1], more);
  }

  // Line 395 is executed while a reader token is outstanding; only Solution 3 has such a line.
  predicate Unsafe(s: State, c: Choice) {
    c.Step? && s.sync.S3? && Solution3Exclusion.UnsafeWake(s.sync.s3, c.tid)
  }

  predicate SafeRun(s: State, sched: seq<Choice>)
    requires CanRun(s, sched)
  {
    sched == [] ||
    (SafeRun(s, sched[..|sched| - 1]) && !Unsafe(Run(s, sched[..|sched| - 1]), sched[|sched| - 1]))
  }

  // Solutions 1 and 2 have safe runs only.
  lemma {:induction false} EveryRunOfSolutions12IsSafe(s: State, sched: seq<Choice>)
    requires CanRun(s, sched) && !s.sync.S3?
    ensures SafeRun(s, sched) && !Run(s, sched).sync.S3?
  {
    if sched != [] {
      EveryRunOfSolutions12IsSafe(s, sched[..|sched| - 1]);
    }
  }

  // ---- The invariant of every run ----

  ghost predicate SyncInv(sync: Sync) {
    match sync
    case S1(s) => Solution1.Inv(s)
    case S2(s) => Solution2.Inv(s)
    case S3(s) => Solution3.Inv(s)
  }

  // Where the protocol has a thread is where its request is.
  predicate Agrees(zone: Zone, job: Kboard.Job) {
    match zone
    case Outside => job.Free?
    case Entering(role) => job.Waiting? && Kboard.RoleOf(job.op) == role
    case Inside(role) => job.Running? && Kboard.RoleOf(job.op) == role
    case Leaving(role) => job.Finished? && Kboard.RoleOf(job.op) == role
  }

  ghost predicate Inv(s: State) {
    && Paired(s)
    && SyncInv(s.sync)
    && Kboard.WellFormed(s.board)
    && forall t :: 0 <= t < Threads(s.sync) ==> Agrees(ZoneOf(s.sync, t), s.board.jobs[t])
  }

  lemma GoKeeps(sync: Sync, t: nat)
    requires SyncInv(sync) && t < Threads(sync) && CanGo(sync, t)
    ensures SyncInv(Go(sync, t)) && Threads(Go(sync, t)) == Threads(sync)
    ensures Advances(ZoneOf(sync, t), ZoneOf(Go(sync, t), t))
    ensures forall i :: 0 <= i < Threads(sync) && i != t ==> ZoneOf(Go(sync, t), i) == ZoneOf(sync, i)
  {
    match sync
    case S1(s) =>
      Solution1.GoKeeps(s, t);
      Solution1.GoDescends(s, t);
    case S2(s) =>
      Solution2.GoKeeps(s, t);
      Solution2.GoDescends(s, t);
    case S3(s) =>
      Solution3.GoKeeps(s, t);
      Solution3.GoDescends(s, t);
  }

  lemma ArriveKeeps(sync: Sync, t: nat, role: Role)
    requires SyncInv(sync) && t < Threads(sync) && ZoneOf(sync, t).Outside?
    ensures SyncInv(Arrive(sync, t, role)) && Threads(Arrive(sync, t, role)) == Threads(sync)
    ensures ZoneOf(Arrive(sync, t, role), t) == Entering(role)
    ensures forall i :: 0 <= i < Threads(sync) && i != t ==> ZoneOf(Arrive(sync, t, role), i) == ZoneOf(sync, i)
  {
    match sync
    case S1(s) => Solution1.ArriveKeeps(s, t, role);
    case S2(s) => Solution2.ArriveKeeps(s, t, role);
    case S3(s) => Solution3.ArriveKeeps(s, t, role);
  }
}
