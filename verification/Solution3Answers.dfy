// Exactly when two writers can be inside together under SYNC_SOLUTION 3, and with that exactly when its
// answers are those of an atomic queue, PerformWriter is right, and line 487 stores into the ring.
module Solution3Answers {
  import opened Counting
  import opened Zones
  import opened Fifo
  import Kboard
  import opened Service
  import opened ServiceRuns
  import opened WritersMeet
  import opened SectionRuns
  import Ring
  import C = ServiceCounts
  import M = Solution3Module
  import T = Solution3Threads

  // ---- What goes wrong ----

  lemma InitRests(s: State)
    requires IsInit(s) && s.sync.S3?
    ensures Rests(s, []) && EmptyAt(s.board.board, 0)
  {
    InitInv(s);
  }

  // The number accepted once is delivered twice, and everybody has left: more than any queue could do, in
  // whatever order the requests are thought to happen.
  lemma DeliveredTwice(s: State, w: nat, r1: nat, r2: nat, w2: nat) returns (sched: seq<Choice>)
    requires IsInit(s) && s.sync.S3? && Quartet(s, [], w, r1, r2, w2)
    ensures CanRun(s, sched) && Calls(sched) == Meeting(w, r1, r2, w2) && AllOutside(Run(s, sched))
    ensures Accepted(Run(s, sched).board.log) == [0] && Delivered(Run(s, sched).board.log) == [0, 0]
    ensures Kboard.Cap(Run(s, sched).board) == Kboard.Cap(s.board) && Run(s, sched).board.board.count == -1
    ensures !InSomeOrder(Kboard.Cap(s.board), Run(s, sched).board.log) && !AtomicHistory(Run(s, sched).board)
  {
    InitRests(s);
    sched := TakenTwice(s, [], w, r1, r2, w2, 0);
    RestsFree(s, sched);
    if InSomeOrder(Kboard.Cap(s.board), Run(s, sched).board.log) {
      NoOrderDeliversMore(Kboard.Cap(s.board), Run(s, sched).board.log);
    }
  }

  // Two writers are inside together.
  lemma WritersAreTogether(s: State, w: nat, r1: nat, r2: nat, w2: nat) returns (sched: seq<Choice>)
    requires IsInit(s) && s.sync.S3? && Quartet(s, [], w, r1, r2, w2)
    ensures CanRun(s, sched) && Calls(sched) == Meeting(w, r1, r2, w2) && !Sole(ZonesOf(Run(s, sched).sync), WriterRole)
  {
    InitRests(s);
    sched := BothComeToDequeue(s, [], w, r1, r2, w2, 0);
    C.ZonesAre(Run(s, sched).sync);
  }

  // Both load PerformWriter before either stores it.
  lemma WriterIncrementLost(s: State, w: nat, r1: nat, r2: nat, w2: nat) returns (sched: seq<Choice>)
    requires IsInit(s) && s.sync.S3? && Quartet(s, [], w, r1, r2, w2)
    ensures CanRun(s, sched) && Calls(sched) == Meeting(w, r1, r2, w2) && !C.Exact(Run(s, sched), WriterRole)
  {
    InitRests(s);
    sched := BothComeToDequeue(s, [], w, r1, r2, w2, 0);
    sched := C.BothIncrement(s, sched, w, w2, Dequeue);
    C.ExactWithoutStaleStores(s, sched, WriterRole);
  }

  // Line 487 is about to store in front of the ring: the index has been brought to the last slot but one,
  // the double removal brings it to 0 and RingBufferCount to -1, and the next writer adds the two.
  lemma StoreStrays(s: State, w: nat, r1: nat, r2: nat, w2: nat) returns (sched: seq<Choice>)
    requires IsInit(s) && s.sync.S3? && Quartet(s, [], w, r1, r2, w2) && Kboard.Cap(s.board) >= 2
    ensures CanRun(s, sched)
    ensures Calls(sched) == Pairs(w, Kboard.Cap(s.board) - 2) + Meeting(w, r1, r2, w2) + [(w, WriterRole)]
    ensures w < |Run(s, sched).board.jobs|
    ensures Run(s, sched).board.jobs[w] == Kboard.Running(Enqueue(0), Kboard.FillSlot(-1))
  {
    InitRests(s);
    var cap := Kboard.Cap(s.board);
    sched := IndexMoves(s, w, cap - 2);
    sched := TakenTwice(s, sched, w, r1, r2, w2, cap - 2);
    RunKeeps(s, sched);
    Ring.Wrapped(cap - 1, cap);
    Ring.Wrapped(cap, cap);
    sched := AddressStrays(s, sched, w);
  }

  // ---- When it cannot ----

  lemma TwoThreadsApart(s: State, sched: seq<Choice>)
    requires IsInit(s) && CanRun(s, sched) && (s.sync.S3? ==> Threads(s.sync) <= 2)
    ensures WritersApart(s, sched)
  {
    if s.sync.S3? { M.TwoThreadsAreSafe(s, sched); }
  }

  // One thread at most reads, or one at most writes.
  predicate OneOfEither(roles: seq<Role>) {
    Count(roles, Is(ReaderRole)) <= 1 || Count(roles, Is(WriterRole)) <= 1
  }

  lemma OneOfEitherApart(s: State, sched: seq<Choice>, roles: seq<Role>)
    requires IsInit(s) && CanRun(s, sched) && |roles| == Threads(s.sync) && Cast(roles, Calls(sched))
    requires s.sync.S3? ==> OneOfEither(roles)
    ensures WritersApart(s, sched)
  {
    if s.sync.S3? {
      if Count(roles, Is(ReaderRole)) <= 1 {
        M.HarmlessIsSafe(s, sched, roles);
      } else {
        C.OneOfRoleIsSole(s, sched, roles, WriterRole);
      }
    }
  }

  // Two readers and two writers can be told to play any of the runs above.
  lemma TwoOfBoth(s: State, roles: seq<Role>) returns (w: nat, r1: nat, r2: nat, w2: nat)
    requires IsInit(s) && s.sync.S3? && |roles| == Threads(s.sync) && !OneOfEither(roles)
    ensures Quartet(s, [], w, r1, r2, w2) && Cast(roles, Meeting(w, r1, r2, w2)) && w < |roles| && roles[w].WriterRole?
  {
    InitRests(s);
    r1, r2 := CountTwoWitnesses(roles, Is(ReaderRole));
    w, w2 := CountTwoWitnesses(roles, Is(WriterRole));
  }

  lemma StoreStraysInCast(s: State, roles: seq<Role>) returns (sched: seq<Choice>)
    requires IsInit(s) && s.sync.S3? && |roles| == Threads(s.sync) && !OneOfEither(roles) && Kboard.Cap(s.board) >= 2
    ensures CanRun(s, sched) && Cast(roles, Calls(sched)) && !InRange(Run(s, sched).board)
  {
    var w, r1, r2, w2 := TwoOfBoth(s, roles);
    sched := StoreStrays(s, w, r1, r2, w2);
    CastPairs(roles, w, Kboard.Cap(s.board) - 2);
    CastConcat(roles, Pairs(w, Kboard.Cap(s.board) - 2), Meeting(w, r1, r2, w2));
    CastAppend(roles, Pairs(w, Kboard.Cap(s.board) - 2) + Meeting(w, r1, r2, w2), (w, WriterRole));
  }

  // ---- Exactly when, by the number of threads ----

  ghost predicate ApartInEveryRun(s: State) {
    forall sched :: CanRun(s, sched) ==> Sole(ZonesOf(Run(s, sched).sync), WriterRole)
  }

  // Two writers are never inside together, in any run, if and only if the module has at most two threads.
  lemma ApartIffTwoThreads(s: State)
    requires IsInit(s) && s.sync.S3?
    ensures ApartInEveryRun(s) <==> Threads(s.sync) <= 2
  {
    if Threads(s.sync) <= 2 {
      forall sched | CanRun(s, sched)
        ensures Sole(ZonesOf(Run(s, sched).sync), WriterRole)
      {
        TwoThreadsApart(s, sched);
        ApartIsSole(s, sched);
      }
    } else {
      InitRests(s);
      var sched := WritersAreTogether(s, 0, 1, 2, 1);
    }
  }

  ghost predicate AtomicInEveryRun(s: State) {
    forall sched :: CanRun(s, sched) ==> AtomicHistory(Run(s, sched).board)
  }

  ghost predicate OrderedInEveryRun(s: State)
    requires Kboard.Cap(s.board) > 0
  {
    forall sched :: CanRun(s, sched) ==> InSomeOrder(Kboard.Cap(s.board), Run(s, sched).board.log)
  }

  // The answers are those of the atomic queue in every run, in the order in which the requests took effect
  // or in any order at all, if and only if the module has at most two threads.
  lemma AtomicIffTwoThreads(s: State)
    requires IsInit(s) && s.sync.S3?
    ensures AtomicInEveryRun(s) <==> Threads(s.sync) <= 2
    ensures OrderedInEveryRun(s) <==> Threads(s.sync) <= 2
  {
    if Threads(s.sync) <= 2 {
      forall sched | CanRun(s, sched)
        ensures AtomicHistory(Run(s, sched).board) && InSomeOrder(Kboard.Cap(s.board), Run(s, sched).board.log)
      {
        TwoThreadsApart(s, sched);
        Linearizable(s, sched);
      }
    } else {
      InitRests(s);
      var sched := DeliveredTwice(s, 0, 1, 2, 1);
    }
  }

  // PerformWriter is exact in every run if and only if the module has at most two threads.
  lemma WriterCountExactIffTwoThreads(s: State)
    requires IsInit(s) && s.sync.S3?
    ensures C.ExactInEveryRun(s, WriterRole) <==> Threads(s.sync) <= 2
  {
    if Threads(s.sync) <= 2 {
      forall sched | CanRun(s, sched)
        ensures C.Exact(Run(s, sched), WriterRole)
      {
        TwoThreadsApart(s, sched);
        C.Conservation(s, sched);
      }
    } else {
      InitRests(s);
      var sched := WriterIncrementLost(s, 0, 1, 2, 1);
    }
  }

  ghost predicate InRangeInEveryRun(s: State) {
    forall sched :: CanRun(s, sched) ==> InRange(Run(s, sched).board)
  }

  // The address at line 487 is one of the ring in every run if and only if Solution 1 or 2 is selected, or
  // the module has at most two threads, or the ring has one slot.
  lemma AddressInRangeIffTwoThreads(s: State)
    requires IsInit(s)
    ensures InRangeInEveryRun(s) <==> !s.sync.S3? || Threads(s.sync) <= 2 || Kboard.Cap(s.board) == 1
  {
    if !s.sync.S3? || Threads(s.sync) <= 2 || Kboard.Cap(s.board) == 1 {
      forall sched | CanRun(s, sched)
        ensures InRange(Run(s, sched).board)
      {
        if !s.sync.S3? || Threads(s.sync) <= 2 { TwoThreadsApart(s, sched); }
        AddressInRange(s, sched);
      }
    } else {
      InitRests(s);
      var sched := StoreStrays(s, 0, 1, 2, 1);
    }
  }

  // ---- Exactly when, with a role for each thread ----

  ghost predicate ApartFor(s: State, roles: seq<Role>) {
    forall sched :: CanRun(s, sched) && Cast(roles, Calls(sched)) ==> Sole(ZonesOf(Run(s, sched).sync), WriterRole)
  }

  // When each thread only reads or only writes: if and only if at most one of them reads or at most one
  // of them writes.
  lemma ApartIffOneOfEither(s: State, roles: seq<Role>)
    requires IsInit(s) && s.sync.S3? && |roles| == Threads(s.sync)
    ensures ApartFor(s, roles) <==> OneOfEither(roles)
  {
    if OneOfEither(roles) {
      forall sched | CanRun(s, sched) && Cast(roles, Calls(sched))
        ensures Sole(ZonesOf(Run(s, sched).sync), WriterRole)
      {
        OneOfEitherApart(s, sched, roles);
        ApartIsSole(s, sched);
      }
    } else {
      var w, r1, r2, w2 := TwoOfBoth(s, roles);
      var sched := WritersAreTogether(s, w, r1, r2, w2);
    }
  }

  ghost predicate AtomicFor(s: State, roles: seq<Role>) {
    forall sched :: CanRun(s, sched) && Cast(roles, Calls(sched)) ==> AtomicHistory(Run(s, sched).board)
  }

  ghost predicate OrderedFor(s: State, roles: seq<Role>)
    requires Kboard.Cap(s.board) > 0
  {
    forall sched :: CanRun(s, sched) && Cast(roles, Calls(sched)) ==>
           InSomeOrder(Kboard.Cap(s.board), Run(s, sched).board.log)
  }

  // And so it is for the answers. With one writer they are those of the atomic queue although readers may
  // be inside with it.
  lemma AtomicIffOneOfEither(s: State, roles: seq<Role>)
    requires IsInit(s) && s.sync.S3? && |roles| == Threads(s.sync)
    ensures AtomicFor(s, roles) <==> OneOfEither(roles)
    ensures OrderedFor(s, roles) <==> OneOfEither(roles)
  {
    if OneOfEither(roles) {
      forall sched | CanRun(s, sched) && Cast(roles, Calls(sched))
        ensures AtomicHistory(Run(s, sched).board) && InSomeOrder(Kboard.Cap(s.board), Run(s, sched).board.log)
      {
        OneOfEitherApart(s, sched, roles);
        Linearizable(s, sched);
      }
    } else {
      var w, r1, r2, w2 := TwoOfBoth(s, roles);
      var sched := DeliveredTwice(s, w, r1, r2, w2);
    }
  }

  // For PerformWriter;
  lemma WriterCountExactIffOneOfEither(s: State, roles: seq<Role>)
    requires IsInit(s) && s.sync.S3? && |roles| == Threads(s.sync)
    ensures C.ExactFor(s, roles, WriterRole) <==> OneOfEither(roles)
  {
    if OneOfEither(roles) {
      forall sched | CanRun(s, sched) && Cast(roles, Calls(sched))
        ensures C.Exact(Run(s, sched), WriterRole)
      {
        OneOfEitherApart(s, sched, roles);
        C.Conservation(s, sched);
      }
    } else {
      var w, r1, r2, w2 := TwoOfBoth(s, roles);
      var sched := WriterIncrementLost(s, w, r1, r2, w2);
    }
  }

  ghost predicate InRangeFor(s: State, roles: seq<Role>) {
    forall sched :: CanRun(s, sched) && Cast(roles, Calls(sched)) ==> InRange(Run(s, sched).board)
  }

  // and for the address at line 487, under each of the three solutions.
  lemma AddressInRangeIffOneOfEither(s: State, roles: seq<Role>)
    requires IsInit(s) && |roles| == Threads(s.sync)
    ensures InRangeFor(s, roles) <==> !s.sync.S3? || OneOfEither(roles) || Kboard.Cap(s.board) == 1
  {
    if !s.sync.S3? || OneOfEither(roles) || Kboard.Cap(s.board) == 1 {
      forall sched | CanRun(s, sched) && Cast(roles, Calls(sched))
        ensures InRange(Run(s, sched).board)
      {
        if !s.sync.S3? || OneOfEither(roles) { OneOfEitherApart(s, sched, roles); }
        AddressInRange(s, sched);
      }
    } else {
      var sched := StoreStraysInCast(s, roles);
    }
  }
}
