// Building runs of SYNC_SOLUTION 3 piece by piece: what one thread does from one point of
// interest to the next when nobody else moves.
module Solution3Trails {
  import opened Zones
  import opened Solution3
  import opened Solution3Runs

  // A schedule, the state it leads to and the arrivals in it.
  datatype Trail = Trail(sched: seq<Choice>, end: State, calls: seq<(nat, Role)>)

  ghost predicate From(s: State, r: Trail) {
    CanRun(s, r.sched) && Run(s, r.sched) == r.end && Arrivals(r.sched) == r.calls
  }

  // Thread t is in the module's code, at pc.
  predicate Stands(r: Trail, t: nat, pc: Pc) {
    t < |r.end.pcs| && r.end.pcs[t] == pc
  }

  lemma Advancing(s: State, r: Trail, t: nat) returns (r': Trail)
    requires From(s, r) && t < |r.end.pcs| && CanGo(r.end, t)
    ensures From(s, r') && r'.calls == r.calls
    ensures r'.end == Go(r.end, t)
  {
    r' := Trail(r.sched + [Advance(t)], Go(r.end, t), r.calls);
    assert r'.sched[..|r'.sched| - 1] == r.sched;
  }

  // A thread arrives and reaches the test at line 281 or 320.
  lemma Arrives(s: State, r: Trail, t: nat, role: Role) returns (r': Trail)
    requires From(s, r) && Stands(r, t, Idle) && r.end.mutex == 1
    ensures From(s, r') && r'.calls == r.calls + [(t, role)]
    ensures r'.end == r.end.(mutex := 0, pcs := r.end.pcs[t := Enter(role, Test)])
  {
    r' := Trail(r.sched + [Arrival(t, role)], Arrive(r.end, t, role), r.calls + [(t, role)]);
    assert r'.sched[..|r'.sched| - 1] == r.sched;
    r' := Advancing(s, r', t);
    assert r'.end.pcs == r.end.pcs[t := Enter(role, Test)];
  }

  // One step inside the entry section, other than its last.
  lemma EntryAdvances(s: State, r: Trail, t: nat, role: Role, at: EnterPc) returns (r': Trail)
    requires From(s, r) && Stands(r, t, Enter(role, at)) && CanGo(r.end, t) && !at.Up?
    ensures From(s, r') && r'.calls == r.calls
    ensures r'.end == SharedEnter(r.end, role, at).(pcs := r.end.pcs[t := Enter(role, NextEnter(r.end, role, at))])
  {
    r' := Advancing(s, r, t);
  }

  lemma CountedIn(s: State, r: Trail, t: nat, role: Role, tmp: int) returns (r': Trail)
    requires From(s, r) && Stands(r, t, Enter(role, Store(tmp)))
    ensures From(s, r') && r'.calls == r.calls
    ensures r'.end == SetActive(r.end, role, tmp + 1).(mutex := r.end.mutex + 1, pcs := r.end.pcs[t := In(role)])
  {
    r' := EntryAdvances(s, r, t, role, Store(tmp));
    r' := Advancing(s, r', t);
    assert r'.end.pcs == r.end.pcs[t := In(role)];
  }

  // From line 290 or 328, holding the mutex, to the inside.
  lemma Admitted(s: State, r: Trail, t: nat, role: Role) returns (r': Trail)
    requires From(s, r) && Stands(r, t, Enter(role, Load))
    ensures From(s, r') && r'.calls == r.calls
    ensures r'.end == SetActive(r.end, role, Active(r.end, role) + 1)
                        .(mutex := r.end.mutex + 1, pcs := r.end.pcs[t := In(role)])
  {
    r' := EntryAdvances(s, r, t, role, Load);
    r' := CountedIn(s, r', t, role, Active(r.end, role));
    assert r'.end.pcs == r.end.pcs[t := In(role)];
  }

  // A thread that need not wait goes straight in.
  lemma GoesIn(s: State, r: Trail, t: nat, role: Role) returns (r': Trail)
    requires From(s, r) && Stands(r, t, Idle) && r.end.mutex == 1 && !MustWait(r.end, role)
    ensures From(s, r') && r'.calls == r.calls + [(t, role)]
    ensures r'.end == SetActive(r.end, role, Active(r.end, role) + 1).(pcs := r.end.pcs[t := In(role)])
  {
    r' := Arrives(s, r, t, role);
    r' := Advancing(s, r', t);
    r' := Admitted(s, r', t, role);
  }

  // A thread that must wait goes to sleep.
  lemma FallsAsleep(s: State, r: Trail, t: nat, role: Role) returns (r': Trail)
    requires From(s, r) && Stands(r, t, Idle) && r.end.mutex == 1 && MustWait(r.end, role)
    ensures From(s, r') && r'.calls == r.calls + [(t, role)]
    ensures r'.end == SetWaiting(r.end, role, Waiting(r.end, role) + 1).(pcs := r.end.pcs[t := Enter(role, Sleep)])
  {
    r' := Arrives(s, r, t, role);
    r' := Advancing(s, r', t);
    assert r'.end == r.end.(mutex := 0, pcs := r.end.pcs[t := Enter(role, LoadWait)]);
    r' := Queues(s, r', t, role);
  }

  lemma Queues(s: State, r: Trail, t: nat, role: Role) returns (r': Trail)
    requires From(s, r) && Stands(r, t, Enter(role, LoadWait)) && r.end.mutex == 0
    ensures From(s, r') && r'.calls == r.calls
    ensures r'.end == SetWaiting(r.end, role, Waiting(r.end, role) + 1)
                        .(mutex := 1, pcs := r.end.pcs[t := Enter(role, Sleep)])
  {
    r' := Advancing(s, r, t);
    r' := Advancing(s, r', t);
    r' := Advancing(s, r', t);
    assert r'.end.pcs == r.end.pcs[t := Enter(role, Sleep)];
  }

  // The semaphore a sleeper of each role waits for.
  function Tokens(s: State, role: Role): nat {
    if role.WriterRole? then s.writer else s.reader
  }

  function SetTokens(s: State, role: Role, x: nat): State {
    if role.WriterRole? then s.(writer := x) else s.(reader := x)
  }

  // A thread whose waiting is over is inside: one less waits, one more is in.
  function Joined(s: State, t: nat, role: Role): State
    requires t < |s.pcs|
  {
    SetActive(SetWaiting(s, role, Waiting(s, role) - 1), role, Active(s, role) + 1).(pcs := s.pcs[t := In(role)])
  }

  // From line 286 or 324, with a token in the semaphore and the mutex free, to the inside.
  lemma SleeperEnters(s: State, r: Trail, t: nat, role: Role) returns (r': Trail)
    requires From(s, r) && Stands(r, t, Enter(role, Sleep)) && r.end.mutex == 1 && Tokens(r.end, role) > 0
    ensures From(s, r') && r'.calls == r.calls
    ensures r'.end == SetTokens(Joined(r.end, t, role), role, Tokens(r.end, role) - 1)
  {
    r' := Advancing(s, r, t);
    r' := WokenEnters(s, r', t, role);
  }

  lemma WokenEnters(s: State, r: Trail, t: nat, role: Role) returns (r': Trail)
    requires From(s, r) && Stands(r, t, Enter(role, Redown)) && r.end.mutex == 1
    ensures From(s, r') && r'.calls == r.calls
    ensures r'.end == Joined(r.end, t, role)
  {
    r' := WaitsNoLonger(s, r, t, role);
    r' := Admitted(s, r', t, role);
    assert r'.end.pcs == r.end.pcs[t := In(role)];
  }

  // Lines 287-288 and 325-326.
  lemma WaitsNoLonger(s: State, r: Trail, t: nat, role: Role) returns (r': Trail)
    requires From(s, r) && Stands(r, t, Enter(role, Redown)) && r.end.mutex == 1
    ensures From(s, r') && r'.calls == r.calls
    ensures r'.end == SetWaiting(r.end, role, Waiting(r.end, role) - 1)
                        .(mutex := 0, pcs := r.end.pcs[t := Enter(role, Load)])
  {
    r' := EntryAdvances(s, r, t, role, Redown);
    r' := EntryAdvances(s, r', t, role, LoadWake);
    r' := EntryAdvances(s, r', t, role, StoreWake(Waiting(r.end, role)));
    assert r'.end.pcs == r.end.pcs[t := Enter(role, Load)];
  }

  // One step of the exit section of a writer, other than its last.
  lemma ExitAdvances(s: State, r: Trail, t: nat, w: LeaveWriterPc) returns (r': Trail)
    requires From(s, r) && Stands(r, t, LeaveWriter(w)) && CanGo(r.end, t) && !w.WUp?
    ensures From(s, r') && r'.calls == r.calls
    ensures r'.end == SharedLeaveWriter(r.end, w).(pcs := r.end.pcs[t := LeaveWriter(NextLeaveWriter(r.end, w))])
  {
    r' := Advancing(s, r, t);
  }

  // A writer that has finished its work reaches the wake-up loop.
  lemma WriterStartsLoop(s: State, r: Trail, t: nat) returns (r': Trail)
    requires From(s, r) && Stands(r, t, LeaveWriter(WDown)) && r.end.mutex == 1 && r.end.readersWaiting > 0
    ensures From(s, r') && r'.calls == r.calls
    ensures r'.end == r.end.(mutex := 0, writerCount := r.end.writerCount - 1,
                             pcs := r.end.pcs[t := LeaveWriter(Loop(0))])
  {
    r' := ExitAdvances(s, r, t, WDown);
    r' := ExitAdvances(s, r', t, WLoad);
    r' := ExitAdvances(s, r', t, WStore(r.end.writerCount));
    r' := ExitAdvances(s, r', t, WTest);
    assert r'.end.pcs == r.end.pcs[t := LeaveWriter(Loop(0))];
  }

  lemma LoopRound(s: State, r: Trail, t: nat, index: int) returns (r': Trail)
    requires From(s, r) && Stands(r, t, LeaveWriter(Loop(index))) && index < r.end.readersWaiting
    ensures From(s, r') && r'.calls == r.calls
    ensures r'.end == r.end.(reader := r.end.reader + 1, pcs := r.end.pcs[t := LeaveWriter(Loop(index + 1))])
  {
    r' := ExitAdvances(s, r, t, Loop(index));
    r' := ExitAdvances(s, r', t, Post(index));
    assert r'.end.pcs == r.end.pcs[t := LeaveWriter(Loop(index + 1))];
  }

  // The rest of the wake-up loop: one token for each index left, then the mutex is given back.
  lemma {:induction false} LoopFinishes(s: State, r: Trail, t: nat, index: int) returns (r': Trail)
    requires From(s, r) && Stands(r, t, LeaveWriter(Loop(index))) && index <= r.end.readersWaiting
    ensures From(s, r') && r'.calls == r.calls
    ensures r'.end == r.end.(mutex := r.end.mutex + 1, reader := r.end.reader + r.end.readersWaiting - index,
                             pcs := r.end.pcs[t := Idle])
    decreases r.end.readersWaiting - index
  {
    if index < r.end.readersWaiting {
      r' := LoopRound(s, r, t, index);
      r' := LoopFinishes(s, r', t, index + 1);
    } else {
      r' := ExitAdvances(s, r, t, Loop(index));
      r' := Advancing(s, r', t);
    }
    assert r'.end.pcs == r.end.pcs[t := Idle];
  }

  // The only reader inside leaves: to line 395 if a writer waits, past it otherwise.
  lemma ReaderLeaves(s: State, r: Trail, t: nat) returns (r': Trail)
    requires From(s, r) && Stands(r, t, In(ReaderRole)) && r.end.mutex == 1 && r.end.readerCount == 1
    ensures From(s, r') && r'.calls == r.calls
    ensures r'.end == r.end.(mutex := 0, readerCount := 0,
                             pcs := r.end.pcs[t := LeaveReader(if r.end.writersWaiting > 0 then RWake else RUp)])
  {
    r' := Advancing(s, r, t);
    r' := Advancing(s, r', t);
    assert r'.end == r.end.(mutex := 0, pcs := r.end.pcs[t := LeaveReader(RLoad)]);
    r' := Advancing(s, r', t);
    r' := Advancing(s, r', t);
    assert r'.end == r.end.(mutex := 0, readerCount := 0, pcs := r.end.pcs[t := LeaveReader(RTest)]);
    r' := Advancing(s, r', t);
    assert r'.end.pcs[t].LeaveReader? && r'.end.pcs == r.end.pcs[t := r'.end.pcs[t]];
  }

  // Line 397.
  lemma ReaderIsGone(s: State, r: Trail, t: nat) returns (r': Trail)
    requires From(s, r) && Stands(r, t, LeaveReader(RUp)) && r.end.mutex == 0
    ensures From(s, r') && r'.calls == r.calls
    ensures r'.end == r.end.(mutex := 1, pcs := r.end.pcs[t := Idle])
  {
    r' := Advancing(s, r, t);
  }
}
