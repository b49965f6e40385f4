// Conditions that can be checked before a run of SYNC_SOLUTION 3 starts and make it safe: at most one
// reader at a time, two threads, or roles given to the threads so that one of them reads or none
// writes. A writer and two readers are enough for a run that is not safe, and for the harm it does.
module Solution3Threads {
  import opened Counting
  import opened Zones
  import opened Solution3
  import opened Solution3Runs
  import opened Solution3Trails
  import opened Solution3Exclusion

  // A thread in EnterCriticalSection_Reader, in the reader's critical section or on its way out.
  predicate Reading(pc: Pc) {
    pc.LeaveReader? || (pc.Enter? && pc.role.ReaderRole?) || pc == In(ReaderRole)
  }

  ghost predicate OneReaderRun(s: State, sched: seq<Choice>)
    requires CanRun(s, sched)
  {
    && Count(Run(s, sched).pcs, Reading) <= 1
    && (sched == [] || OneReaderRun(s, sched[..|sched| - 1]))
  }

  // Any number of writers and never two readers at once: every such run is safe.
  lemma {:induction false} OneReaderRunIsSafe(s: State, sched: seq<Choice>)
    requires ExclusionInv(s) && CanRun(s, sched) && OneReaderRun(s, sched)
    ensures SafeRun(s, sched)
  {
    if sched != [] {
      var before, c := sched[..|sched| - 1], sched[|sched| - 1];
      OneReaderRunIsSafe(s, before);
      SafeRunExcludes(s, before);
      var here := Run(s, before);
      if UnsafeChoice(here, c) {
        var r, _ := UnsafeWakeNeedsThree(here, c.tid);
        CountUnique(here.pcs, r, c.tid, Reading);
      }
    }
  }

  lemma {:induction false} TwoThreadRunIsSafe(s: State, sched: seq<Choice>)
    requires ExclusionInv(s) && CanRun(s, sched) && |s.pcs| <= 2
    ensures SafeRun(s, sched)
  {
    if sched != [] {
      var before, c := sched[..|sched| - 1], sched[|sched| - 1];
      TwoThreadRunIsSafe(s, before);
      SafeRunExcludes(s, before);
      if UnsafeChoice(Run(s, before), c) {
        var _, _ := UnsafeWakeNeedsThree(Run(s, before), c.tid);
      }
    }
  }

  // ---- Threads that keep to one role ----

  lemma StepPlays(s: State, c: Choice, roles: seq<Role>)
    requires CanDo(s, c) && Plays(roles, ZonesOf(s)) && (c.Arrival? ==> c.role == roles[c.tid])
    ensures Plays(roles, ZonesOf(Do(s, c)))
  {
    if c.Advance? { LocalZone(s, s.pcs[c.tid]); }
    forall i | 0 <= i < |s.pcs|
      ensures ZonesOf(Do(s, c))[i].Outside? || ZonesOf(Do(s, c))[i].role == roles[i]
    {
      assert ZonesOf(s)[i] == ZoneAt(s.pcs[i]);
    }
  }

  lemma CastEarlier(roles: seq<Role>, sched: seq<Choice>)
    requires Cast(roles, Arrivals(sched)) && sched != []
    ensures Cast(roles, Arrivals(sched[..|sched| - 1]))
    ensures var c := sched[|sched| - 1]; c.Arrival? ==> c.tid < |roles| && c.role == roles[c.tid]
  {
    var earlier, c := Arrivals(sched[..|sched| - 1]), sched[|sched| - 1];
    if c.Arrival? {
      CastAppend(roles, earlier, (c.tid, c.role));
    } else {
      assert Arrivals(sched) == earlier;
    }
  }

  // One thread that reads, or none that writes.
  predicate Harmless(roles: seq<Role>) {
    Count(roles, Is(ReaderRole)) <= 1 || Count(roles, Is(WriterRole)) == 0
  }

  lemma NotHarmless(s: State, t: nat, roles: seq<Role>)
    requires ExclusionInv(s) && UnsafeWake(s, t) && Plays(roles, ZonesOf(s))
    ensures !Harmless(roles)
  {
    var r, w := UnsafeWakeNeedsThree(s, t);
    assert ZonesOf(s)[t].role.ReaderRole? && ZonesOf(s)[r].role.ReaderRole? && ZonesOf(s)[w].role.WriterRole?;
    CountAtLeastOne(roles, w, Is(WriterRole));
    CountAtLeastTwo(roles, if r < t then r else t, if r < t then t else r, Is(ReaderRole));
  }

  lemma {:induction false} HarmlessRunIsSafe(s: State, sched: seq<Choice>, roles: seq<Role>)
    requires ExclusionInv(s) && CanRun(s, sched) && Plays(roles, ZonesOf(s)) && Cast(roles, Arrivals(sched))
    requires Harmless(roles)
    ensures SafeRun(s, sched) && Plays(roles, ZonesOf(Run(s, sched)))
  {
    if sched != [] {
      var before, c := sched[..|sched| - 1], sched[|sched| - 1];
      CastEarlier(roles, sched);
      HarmlessRunIsSafe(s, before, roles);
      SafeRunExcludes(s, before);
      if UnsafeChoice(Run(s, before), c) {
        NotHarmless(Run(s, before), c.tid, roles);
      }
      StepPlays(Run(s, before), c, roles);
    }
  }

  // ---- Three threads break exclusion, and leave a token behind ----

  predicate Distinct(s: State, w: nat, r1: nat, r2: nat) {
    w < |s.pcs| && r1 < |s.pcs| && r2 < |s.pcs| && w != r1 && w != r2 && r1 != r2
  }

  // The arrivals of the run below: a writer, two readers, and the writer again.
  function Cycle(w: nat, r1: nat, r2: nat): seq<(nat, Role)> {
    [(w, WriterRole), (r1, ReaderRole), (r2, ReaderRole), (w, WriterRole)]
  }

  // The stages of the runs below, from a state at rest. A writer is in and two readers queue up;
  function LinedUp(s: State, w: nat, r1: nat, r2: nat): State
    requires Distinct(s, w, r1, r2)
  {
    s.(writerCount := 1, readersWaiting := 2,
       pcs := s.pcs[w := In(WriterRole)][r1 := Enter(ReaderRole, Sleep)][r2 := Enter(ReaderRole, Sleep)])
  }

  // the writer has left, with two tokens for them;
  function TokensIssued(s: State, w: nat, r1: nat, r2: nat): State
    requires Distinct(s, w, r1, r2)
  {
    s.(reader := s.reader + 2, readersWaiting := 2,
       pcs := s.pcs[r1 := Enter(ReaderRole, Sleep)][r2 := Enter(ReaderRole, Sleep)])
  }

  // it has come back to wait, and one reader has passed through and is about to wake it, before the
  // other has used its token;
  function Passing(s: State, w: nat, r1: nat, r2: nat): State
    requires Distinct(s, w, r1, r2)
  {
    s.(mutex := 0, reader := s.reader + 1, writersWaiting := 1, readersWaiting := 1,
       pcs := s.pcs[w := Enter(WriterRole, Sleep)][r1 := LeaveReader(RWake)][r2 := Enter(ReaderRole, Sleep)])
  }

  // it has been woken, and that reader is gone.
  function BothWoken(s: State, w: nat, r1: nat, r2: nat): State
    requires Distinct(s, w, r1, r2)
  {
    s.(writer := s.writer + 1, reader := s.reader + 1, writersWaiting := 1, readersWaiting := 1,
       pcs := s.pcs[w := Enter(WriterRole, Sleep)][r2 := Enter(ReaderRole, Sleep)])
  }

  lemma ThreeLineUp(s: State, w: nat, r1: nat, r2: nat) returns (r: Trail)
    requires Resting(s) && Distinct(s, w, r1, r2)
    ensures From(s, r) && r.calls == [(w, WriterRole), (r1, ReaderRole), (r2, ReaderRole)]
    ensures r.end == LinedUp(s, w, r1, r2)
  {
    r := GoesIn(s, Trail([], s, []), w, WriterRole);
    r := FallsAsleep(s, r, r1, ReaderRole);
    r := FallsAsleep(s, r, r2, ReaderRole);
  }

  // The rest of the run, from where the writer has finished its work.
  lemma WriterServes(start: State, r: Trail, s: State, w: nat, r1: nat, r2: nat) returns (r': Trail)
    requires Resting(s) && Distinct(s, w, r1, r2)
    requires From(start, r)
    requires r.end == LinedUp(s, w, r1, r2).(pcs := LinedUp(s, w, r1, r2).pcs[w := LeaveWriter(WDown)])
    ensures From(start, r') && r'.calls == r.calls && r'.end == TokensIssued(s, w, r1, r2)
  {
    r' := WriterStartsLoop(start, r, w);
    r' := LoopFinishes(start, r', w, 0);
    assert r'.end.pcs == TokensIssued(s, w, r1, r2).pcs;
  }

  lemma ReaderPasses(start: State, r: Trail, s: State, w: nat, r1: nat, r2: nat) returns (r': Trail)
    requires Resting(s) && Distinct(s, w, r1, r2)
    requires From(start, r) && r.end == TokensIssued(s, w, r1, r2)
    ensures From(start, r') && r'.calls == r.calls + [(w, WriterRole)] && r'.end == Passing(s, w, r1, r2)
  {
    r' := FallsAsleep(start, r, w, WriterRole);
    r' := SleeperEnters(start, r', r1, ReaderRole);
    r' := ReaderLeaves(start, r', r1);
    assert r'.end.pcs == Passing(s, w, r1, r2).pcs;
  }

  // Line 395 is executed and its reader is gone: the writer and the other reader both have tokens.
  lemma WriterIsWoken(start: State, r: Trail, s: State, w: nat, r1: nat, r2: nat) returns (r': Trail)
    requires Resting(s) && Distinct(s, w, r1, r2)
    requires From(start, r) && r.end == Passing(s, w, r1, r2)
    ensures From(start, r') && r'.calls == r.calls && r'.end == BothWoken(s, w, r1, r2)
  {
    r' := Advancing(start, r, r1);
    r' := ReaderIsGone(start, r', r1);
    assert r'.end.pcs == BothWoken(s, w, r1, r2).pcs;
  }

  lemma ThreeThreadsReachUnsafeWake(s: State, w: nat, r1: nat, r2: nat) returns (r: Trail)
    requires Resting(s) && Distinct(s, w, r1, r2)
    ensures From(s, r) && r.calls == Cycle(w, r1, r2) && r.end == Passing(s, w, r1, r2)
    ensures UnsafeWake(r.end, r1)
  {
    r := ThreeLineUp(s, w, r1, r2);
    r := Advancing(s, r, w);
    r := WriterServes(s, r, s, w, r1, r2);
    r := ReaderPasses(s, r, s, w, r1, r2);
  }

  lemma ThreeThreadsOverlap(s: State, w: nat, r1: nat, r2: nat) returns (r: Trail)
    requires Resting(s) && Distinct(s, w, r1, r2)
    ensures From(s, r) && r.calls == Cycle(w, r1, r2) && Overlap(ZonesOf(r.end))
  {
    r := ThreeThreadsReachUnsafeWake(s, w, r1, r2);
    r := WriterIsWoken(s, r, s, w, r1, r2);
    r := BothEnter(s, r, w, r2);
  }

  // Or the writer enters and leaves first: it issues a token for the other reader, who already has
  // one. When everybody has left, the semaphore of the readers has one unit more than before.
  lemma TokenLeftBehind(s: State, w: nat, r1: nat, r2: nat) returns (r: Trail)
    requires Resting(s) && Distinct(s, w, r1, r2)
    ensures From(s, r) && r.calls == Cycle(w, r1, r2) && r.end == s.(reader := s.reader + 1)
  {
    r := ThreeThreadsReachUnsafeWake(s, w, r1, r2);
    r := WriterIsWoken(s, r, s, w, r1, r2);
    r := WriterServesAgain(s, r, s, w, r1, r2);
    r := SleeperEnters(s, r, r2, ReaderRole);
    r := ReaderLeaves(s, r, r2);
    r := ReaderIsGone(s, r, r2);
    assert r.end.pcs == s.pcs;
  }

  lemma WriterServesAgain(start: State, r: Trail, s: State, w: nat, r1: nat, r2: nat) returns (r': Trail)
    requires Resting(s) && Distinct(s, w, r1, r2)
    requires From(start, r) && r.end == BothWoken(s, w, r1, r2)
    ensures From(start, r') && r'.calls == r.calls
    ensures r'.end == s.(reader := s.reader + 2, readersWaiting := 1, pcs := s.pcs[r2 := Enter(ReaderRole, Sleep)])
  {
    r' := SleeperEnters(start, r, w, WriterRole);
    r' := Advancing(start, r', w);
    r' := WriterStartsLoop(start, r', w);
    r' := LoopFinishes(start, r', w, 0);
    assert r'.end.pcs == s.pcs[r2 := Enter(ReaderRole, Sleep)];
  }

  // Or another writer queues up, be it the first reader come back as one, and the second reader passes
  // through too and wakes it: two writers are inside together.
  lemma TwoWritersEnter(start: State, r: Trail, s: State, w: nat, r1: nat, r2: nat, w2: nat) returns (r': Trail)
    requires Resting(s) && Distinct(s, w, r1, r2) && w2 < |s.pcs| && w2 != w && w2 != r2
    requires From(start, r) && r.end == BothWoken(s, w, r1, r2)
    ensures From(start, r') && r'.calls == r.calls + [(w2, WriterRole)]
    ensures r'.end == s.(writerCount := 2, pcs := s.pcs[w := In(WriterRole)][w2 := In(WriterRole)])
  {
    r' := TwoWritersWoken(start, r, s, w, r1, r2, w2);
    r' := SleeperEnters(start, r', w, WriterRole);
    r' := SleeperEnters(start, r', w2, WriterRole);
    assert r'.end.pcs == s.pcs[w := In(WriterRole)][w2 := In(WriterRole)];
  }

  lemma TwoWritersWoken(start: State, r: Trail, s: State, w: nat, r1: nat, r2: nat, w2: nat) returns (r': Trail)
    requires Resting(s) && Distinct(s, w, r1, r2) && w2 < |s.pcs| && w2 != w && w2 != r2
    requires From(start, r) && r.end == BothWoken(s, w, r1, r2)
    ensures From(start, r') && r'.calls == r.calls + [(w2, WriterRole)]
    ensures r'.end == s.(writer := s.writer + 2, writersWaiting := 2,
                         pcs := s.pcs[w := Enter(WriterRole, Sleep)][w2 := Enter(WriterRole, Sleep)])
  {
    r' := FallsAsleep(start, r, w2, WriterRole);
    r' := SleeperEnters(start, r', r2, ReaderRole);
    r' := ReaderLeaves(start, r', r2);
    r' := Advancing(start, r', r2);
    r' := ReaderIsGone(start, r', r2);
    assert r'.end.pcs == s.pcs[w := Enter(WriterRole, Sleep)][w2 := Enter(WriterRole, Sleep)];
  }

  // With three threads, any number of units can be left in the semaphore of the readers.
  lemma {:induction false} TokensPileUp(n: nat, tokens: nat) returns (sched: seq<Choice>)
    requires n >= 3
    ensures CanRun(Init(n), sched) && Run(Init(n), sched) == Init(n).(reader := tokens)
  {
    if tokens == 0 {
      sched := [];
    } else {
      sched := TokensPileUp(n, tokens - 1);
      var r := TokenLeftBehind(Run(Init(n), sched), 0, 1, 2);
      RunConcat(Init(n), sched, r.sched);
      sched := sched + r.sched;
    }
  }
}
