// PerformWriter and PerformReader over whole runs of the module, for each of the three protocols:
// what they have to do with the increments made, and exactly when they are right.
module ServiceCounts {
  import opened Counting
  import opened Zones
  import opened Fifo
  import opened Service
  import opened ServiceRuns
  import opened PerformCounts
  import Kboard
  import Linearization

  // A thread stores a value of PerformWriter or PerformReader that is no longer current.
  predicate StaleStore(s: State, c: Choice, role: Role) {
    c.Work? && Stale(s.board, c.tid, role)
  }

  predicate NoStaleStore(s: State, sched: seq<Choice>, role: Role)
    requires CanRun(s, sched)
  {
    sched == [] ||
    (NoStaleStore(s, sched[..|sched| - 1], role) && !StaleStore(Run(s, sched[..|sched| - 1]), sched[|sched| - 1], role))
  }

  // Every completed increment of the role is in its count.
  predicate Exact(s: State, role: Role) {
    Perform(s.board.board, role) == Increments(s.board, role)
  }

  lemma StepCounts(s: State, c: Choice, role: Role)
    requires Inv(s) && CanDo(s, c) && Lagging(s.board, role)
    ensures Lagging(Do(s, c).board, role)
    ensures Exact(Do(s, c), role) <==> Exact(s, role) && !StaleStore(s, c, role)
  {
    match c
    case Call(t, op) =>
      if Kboard.Rejected(op) {
        RejectCounted(s.board, t, op.item, role);
      } else {
        OutsideCounted(s.board, t, Kboard.Waiting(op), role);
      }
    case Step(t) => MoveCounted(s.board, t, ZoneOf(Go(s.sync, t), t), role);
    case Work(t) => StepCounted(s.board, t, role);
  }

  // In every run, also one of Solution 3 in which exclusion fails: a count is never ahead of the
  // increments made, and it is exact if and only if no thread has made a stale store.
  lemma {:induction false} ExactWithoutStaleStores(s: State, sched: seq<Choice>, role: Role)
    requires IsInit(s) && CanRun(s, sched)
    ensures Lagging(Run(s, sched).board, role)
    ensures Perform(Run(s, sched).board.board, role) <= Increments(Run(s, sched).board, role)
    ensures Exact(Run(s, sched), role) <==> NoStaleStore(s, sched, role)
  {
    if sched == [] {
      InitLagging(Kboard.Cap(s.board), |s.board.jobs|, role);
    } else {
      var before := sched[..|sched| - 1];
      ExactWithoutStaleStores(s, before, role);
      InitInv(s);
      RunKeeps(s, before);
      StepCounts(Run(s, before), sched[|sched| - 1], role);
    }
  }

  // ---- Alone inside in a role ----

  lemma OthersDoNotStore(s: State, t: nat, role: Role)
    requires Inv(s) && Sole(ZonesOf(s.sync), role) && t < Threads(s.sync)
    requires s.board.jobs[t].Running? && Kboard.RoleOf(s.board.jobs[t].op) == role
    ensures forall j :: 0 <= j < |s.board.jobs| && j != t ==> !Storing(s.board.jobs[j], role)
  {
    var zones := ZonesOf(s.sync);
    forall j | 0 <= j < |s.board.jobs| && Storing(s.board.jobs[j], role)
      ensures j == t
    {
      assert Agrees(ZoneOf(s.sync, j), s.board.jobs[j]) && Agrees(ZoneOf(s.sync, t), s.board.jobs[t]);
      assert zones[j] == ZoneOf(s.sync, j) && zones[t] == ZoneOf(s.sync, t);
    }
  }

  lemma StepCurrent(s: State, c: Choice, role: Role)
    requires Inv(s) && CanDo(s, c) && Sole(ZonesOf(s.sync), role) && AllCurrent(s.board, role)
    ensures AllCurrent(Do(s, c).board, role)
  {
    if c.Work? {
      if Kboard.RoleOf(s.board.jobs[c.tid].op) == role { OthersDoNotStore(s, c.tid, role); }
      StepStaysCurrent(s.board, c.tid, role);
    } else {
      forall j | 0 <= j < |s.board.jobs|
        ensures !Stale(Do(s, c).board, j, role)
      {
        assert !Stale(s.board, j, role);
      }
    }
  }

  // Whoever is alone inside in its role stores what is current.
  lemma {:induction false} SoleRunIsCurrent(s: State, sched: seq<Choice>, role: Role)
    requires IsInit(s) && CanRun(s, sched) && SoleRun(s, sched, role)
    ensures AllCurrent(Run(s, sched).board, role) && NoStaleStore(s, sched, role)
  {
    if sched != [] {
      var before := sched[..|sched| - 1];
      SoleRunIsCurrent(s, before, role);
      InitInv(s);
      RunKeeps(s, before);
      StepCurrent(Run(s, before), sched[|sched| - 1], role);
    }
  }

  // Conservation. In every run neither count exceeds the sections of its role past their increment,
  // answered or not. As long as two writers are never inside together, PerformWriter is exact, and with
  // no writer inside RingBufferCount is accepted enqueues minus accepted dequeues.
  lemma Conservation(s: State, sched: seq<Choice>)
    requires IsInit(s) && CanRun(s, sched)
    ensures var b := Run(s, sched).board;
            && b.board.performWriter <= Increments(b, WriterRole)
            && b.board.performReader <= Increments(b, ReaderRole)
            && (WritersApart(s, sched) ==>
                  && b.board.performWriter == Increments(b, WriterRole)
                  && ((forall t :: 0 <= t < |b.jobs| ==> !Kboard.Writing(b.jobs[t])) ==>
                        b.board.count == |Accepted(b.log)| - |Delivered(b.log)|))
  {
    ExactWithoutStaleStores(s, sched, WriterRole);
    ExactWithoutStaleStores(s, sched, ReaderRole);
    if WritersApart(s, sched) {
      ApartIsSole(s, sched);
      SoleRunIsCurrent(s, sched, WriterRole);
      SoleRunKeeps(s, sched);
      QuietCount(Run(s, sched).board);
    }
  }

  lemma QuietCount(b: Kboard.State)
    requires Linearization.Inv(b)
    ensures (forall t :: 0 <= t < |b.jobs| ==> !Kboard.Writing(b.jobs[t])) ==>
              b.board.count == |Accepted(b.log)| - |Delivered(b.log)|
  {
    if forall t :: 0 <= t < |b.jobs| ==> !Kboard.Writing(b.jobs[t]) {
      Linearization.QuietBoard(b);
    }
  }

  // ---- One thread in the role ----

  lemma {:induction false} OneOfRoleIsSole(s: State, sched: seq<Choice>, roles: seq<Role>, role: Role)
    requires IsInit(s) && CanRun(s, sched) && |roles| == Threads(s.sync) && Cast(roles, Calls(sched))
    requires Count(roles, Is(role)) <= 1
    ensures SoleRun(s, sched, role)
  {
    InitInv(s);
    RunPlays(s, sched, roles);
    var zones := ZonesOf(Run(s, sched).sync);
    forall i, j | 0 <= i < |zones| && 0 <= j < |zones| && zones[i] == zones[j] == Inside(role)
      ensures i == j
    {
      CountUnique(roles, i, j, Is(role));
    }
    if sched != [] {
      CastEarlier(roles, sched);
      OneOfRoleIsSole(s, sched[..|sched| - 1], roles, role);
    }
  }

  lemma {:induction false} OneThreadIsSole(s: State, sched: seq<Choice>, role: Role)
    requires IsInit(s) && CanRun(s, sched) && Threads(s.sync) <= 1
    ensures SoleRun(s, sched, role)
  {
    InitInv(s);
    RunKeeps(s, sched);
    if sched != [] { OneThreadIsSole(s, sched[..|sched| - 1], role); }
  }

  // A role that only one thread plays has an exact count, in every run.
  lemma OneOfRoleIsExact(s: State, sched: seq<Choice>, roles: seq<Role>, role: Role)
    requires IsInit(s) && CanRun(s, sched) && |roles| == Threads(s.sync) && Cast(roles, Calls(sched))
    requires Count(roles, Is(role)) <= 1
    ensures Exact(Run(s, sched), role)
  {
    OneOfRoleIsSole(s, sched, roles, role);
    SoleRunIsCurrent(s, sched, role);
    ExactWithoutStaleStores(s, sched, role);
  }

  // ---- Two readers inside together lose an increment ----

  // A reader on its way in among readers gets in by its own steps.
  lemma {:induction false} GetsIn(s: State, sched: seq<Choice>, t: nat) returns (sched': seq<Choice>)
    requires CanRun(s, sched) && Inv(Run(s, sched)) && t < Threads(Run(s, sched).sync)
    requires AmongReaders(ZonesOf(Run(s, sched).sync), t) && ZoneOf(Run(s, sched).sync, t) == Entering(ReaderRole)
    ensures CanRun(s, sched') && Inv(Run(s, sched')) && Calls(sched') == Calls(sched)
    ensures ZonesOf(Run(s, sched').sync) == ZonesOf(Run(s, sched).sync)[t := Inside(ReaderRole)]
    ensures var b := Run(s, sched).board;
            && b.jobs[t].Waiting?
            && Run(s, sched').board == b.(jobs := b.jobs[t := Kboard.Running(b.jobs[t].op, Kboard.LoadPerform)])
    decreases SyncLeft(Run(s, sched).sync)
  {
    var here := Run(s, sched);
    ReadersShare(here.sync, t);
    GoKeeps(here.sync, t);
    GoDescends(here.sync, t);
    assert Agrees(ZoneOf(here.sync, t), here.board.jobs[t]);
    sched' := Then(s, sched, Step(t));
    var there := Run(s, sched');
    StepKeeps(here, Step(t));
    ZonesMove(here.sync, there.sync, t);
    if ZoneOf(there.sync, t).Entering? {
      assert ZonesOf(there.sync) == ZonesOf(here.sync);
      sched' := GetsIn(s, sched', t);
    }
  }

  lemma ZonesMove(sync: Sync, sync': Sync, t: nat)
    requires t < Threads(sync) == Threads(sync')
    requires forall i :: 0 <= i < Threads(sync) && i != t ==> ZoneOf(sync', i) == ZoneOf(sync, i)
    ensures ZonesOf(sync') == ZonesOf(sync)[t := ZoneOf(sync', t)]
    ensures ZonesOf(sync)[t] == ZoneOf(sync, t)
  {
    ZonesAre(sync);
    ZonesAre(sync');
  }

  // A thread outside goes in as a reader, to the start of its critical section.
  lemma ReaderGoesIn(s: State, sched: seq<Choice>, t: nat) returns (sched': seq<Choice>)
    requires CanRun(s, sched) && Inv(Run(s, sched)) && t < Threads(Run(s, sched).sync)
    requires AmongReaders(ZonesOf(Run(s, sched).sync), t) && ZonesOf(Run(s, sched).sync)[t] == Outside
    ensures CanRun(s, sched') && Inv(Run(s, sched')) && Calls(sched') == Calls(sched) + [(t, ReaderRole)]
    ensures ZonesOf(Run(s, sched').sync) == ZonesOf(Run(s, sched).sync)[t := Inside(ReaderRole)]
    ensures var b := Run(s, sched).board;
            Run(s, sched').board == b.(jobs := b.jobs[t := Kboard.Running(Peek(0), Kboard.LoadPerform)])
  {
    var here := Run(s, sched);
    ZonesAre(here.sync);
    assert Agrees(ZoneOf(here.sync, t), here.board.jobs[t]);
    sched' := Then(s, sched, Call(t, Peek(0)));
    ArriveKeeps(here.sync, t, ReaderRole);
    StepKeeps(here, Call(t, Peek(0)));
    ZonesMove(here.sync, Run(s, sched').sync, t);
    sched' := GetsIn(s, sched', t);
  }

  lemma WorkThen(s: State, sched: seq<Choice>, t: nat, role: Role) returns (sched': seq<Choice>)
    requires CanRun(s, sched) && CanDo(Run(s, sched), Work(t))
    ensures CanRun(s, sched') && Calls(sched') == Calls(sched)
    ensures Run(s, sched') == Run(s, sched).(board := Kboard.Access(Run(s, sched).board, t))
    ensures NoStaleStore(s, sched', role) <==> NoStaleStore(s, sched, role) && !Stale(Run(s, sched).board, t, role)
  {
    sched' := Then(s, sched, Work(t));
    assert sched'[..|sched'| - 1] == sched;
  }

  // i and j, inside together with the same request, take two steps each of their sections, in turn.
  lemma BothIncrement(s: State, sched: seq<Choice>, i: nat, j: nat, op: Op) returns (sched': seq<Choice>)
    requires CanRun(s, sched) && Paired(Run(s, sched)) && Kboard.InBounds(Run(s, sched).board.board)
    requires i < Threads(Run(s, sched).sync) && j < Threads(Run(s, sched).sync) && i != j
    requires ZoneOf(Run(s, sched).sync, i).Inside? && ZoneOf(Run(s, sched).sync, j).Inside?
    requires Kboard.Fits(op, Kboard.LoadPerform)
    requires var jobs := Run(s, sched).board.jobs; jobs[i] == jobs[j] == Kboard.Running(op, Kboard.LoadPerform)
    ensures CanRun(s, sched') && Calls(sched') == Calls(sched) && !NoStaleStore(s, sched', Kboard.RoleOf(op))
    ensures Perform(Run(s, sched').board.board, Kboard.RoleOf(op)) ==
            Perform(Run(s, sched).board.board, Kboard.RoleOf(op)) + 1
  {
    var role := Kboard.RoleOf(op);
    LoadLoadStoreStore(Run(s, sched).board, i, j, op);
    sched' := WorkThen(s, sched, i, role);
    sched' := WorkThen(s, sched', j, role);
    sched' := WorkThen(s, sched', i, role);
    sched' := WorkThen(s, sched', j, role);
  }

  // Two readers get in, both load 0 and both store 1.
  lemma TwoReadersLoseAnIncrement(s: State, i: nat, j: nat) returns (sched: seq<Choice>)
    requires IsInit(s) && i < Threads(s.sync) && j < Threads(s.sync) && i != j
    ensures CanRun(s, sched) && Calls(sched) == [(i, ReaderRole), (j, ReaderRole)]
    ensures Perform(Run(s, sched).board.board, ReaderRole) == 1 && !Exact(Run(s, sched), ReaderRole)
  {
    sched := TwoReadersGoIn(s, i, j);
    sched := BothIncrement(s, sched, i, j, Peek(0));
    ExactWithoutStaleStores(s, sched, ReaderRole);
  }

  lemma TwoReadersGoIn(s: State, i: nat, j: nat) returns (sched: seq<Choice>)
    requires IsInit(s) && i < Threads(s.sync) && j < Threads(s.sync) && i != j
    ensures CanRun(s, sched) && Calls(sched) == [(i, ReaderRole), (j, ReaderRole)]
    ensures Inv(Run(s, sched)) && Threads(Run(s, sched).sync) == Threads(s.sync)
    ensures ZoneOf(Run(s, sched).sync, i).Inside? && ZoneOf(Run(s, sched).sync, j).Inside?
    ensures var b := Run(s, sched).board;
            && b.jobs[i] == b.jobs[j] == Kboard.Running(Peek(0), Kboard.LoadPerform)
            && b.board == s.board.board
  {
    InitInv(s);
    InitOutside(s);
    sched := ReaderGoesIn(s, [], i);
    sched := ReaderGoesIn(s, sched, j);
    ZonesAre(Run(s, sched).sync);
  }

  lemma InitOutside(s: State)
    requires IsInit(s)
    ensures forall t :: 0 <= t < Threads(s.sync) ==> ZonesOf(s.sync)[t] == Outside
  {
  }

  lemma ZonesAre(sync: Sync)
    ensures forall t :: 0 <= t < Threads(sync) ==> ZonesOf(sync)[t] == ZoneOf(sync, t)
  {
  }

  ghost predicate ExactInEveryRun(s: State, role: Role) {
    forall sched :: CanRun(s, sched) ==> Exact(Run(s, sched), role)
  }

  ghost predicate ExactFor(s: State, roles: seq<Role>, role: Role) {
    forall sched :: CanRun(s, sched) && Cast(roles, Calls(sched)) ==> Exact(Run(s, sched), role)
  }

  // Under each of the three protocols, PerformReader is exact in every run if and only if the module
  // has at most one thread.
  lemma ReaderCountExactIffOneThread(s: State)
    requires IsInit(s)
    ensures ExactInEveryRun(s, ReaderRole) <==> Threads(s.sync) <= 1
  {
    if Threads(s.sync) <= 1 {
      forall sched | CanRun(s, sched)
        ensures Exact(Run(s, sched), ReaderRole)
      {
        OneThreadIsSole(s, sched, ReaderRole);
        SoleRunIsCurrent(s, sched, ReaderRole);
        ExactWithoutStaleStores(s, sched, ReaderRole);
      }
    } else {
      var sched := TwoReadersLoseAnIncrement(s, 0, 1);
    }
  }

  // When each thread only reads or only writes: if and only if at most one of them reads.
  lemma ReaderCountExactIffOneReader(s: State, roles: seq<Role>)
    requires IsInit(s) && |roles| == Threads(s.sync)
    ensures ExactFor(s, roles, ReaderRole) <==> Count(roles, Is(ReaderRole)) <= 1
  {
    if Count(roles, Is(ReaderRole)) <= 1 {
      forall sched | CanRun(s, sched) && Cast(roles, Calls(sched))
        ensures Exact(Run(s, sched), ReaderRole)
      {
        OneOfRoleIsExact(s, sched, roles, ReaderRole);
      }
    } else {
      TwoReadersNotExact(s, roles);
    }
  }

  lemma TwoReadersNotExact(s: State, roles: seq<Role>)
    requires IsInit(s) && |roles| == Threads(s.sync) && Count(roles, Is(ReaderRole)) >= 2
    ensures !ExactFor(s, roles, ReaderRole)
  {
    var i, j := CountTwoWitnesses(roles, Is(ReaderRole));
    var sched := TwoReadersLoseAnIncrement(s, i, j);
    assert Cast(roles, Calls(sched));
  }
}
