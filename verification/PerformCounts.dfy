// PerformWriter++ and PerformReader++ (lines 417, 477 and 515 of lab2/KboardModule.c) are a load and
// a store each. What the two counts have to do with the increments made, whoever is inside together.
module PerformCounts {
  import opened Counting
  import opened Fifo
  import opened Zones
  import opened Kboard

  // PerformWriter or PerformReader.
  function Perform(b: Board, role: Role): int {
    if role.WriterRole? then b.performWriter else b.performReader
  }

  // Past the increment of PerformWriter or PerformReader, and not in the log yet.
  predicate CountedIn(job: Job) {
    job.Running? && !job.at.LoadPerform? && !job.at.StorePerform? && !Decided(job.at)
  }

  function CountedInAs(role: Role): Job -> bool {
    job => CountedIn(job) && RoleOf(job.op) == role
  }

  // The answers to requests of a role that got as far as the critical section.
  function Served(log: seq<Event>, role: Role): nat {
    if log == [] then 0
    else
      var e := log[|log| - 1];
      Served(log[..|log| - 1], role) + Bit(RoleOf(e.op) == role && !e.response.Invalid?)
  }

  lemma ServedAppend(log: seq<Event>, e: Event, role: Role)
    ensures Served(log + [e], role) == Served(log, role) + Bit(RoleOf(e.op) == role && !e.response.Invalid?)
  {
    assert (log + [e])[..|log|] == log;
  }

  // The critical sections of a role that have completed their increment, answered or not.
  function Increments(s: State, role: Role): nat {
    Served(s.log, role) + Count(s.jobs, CountedInAs(role))
  }

  // A thread between its load and its store.
  predicate Storing(job: Job, role: Role) {
    job.Running? && RoleOf(job.op) == role && job.at.StorePerform?
  }

  // Its store is going to overwrite the increment of another thread.
  predicate Stale(s: State, t: nat, role: Role) {
    t < |s.jobs| && Storing(s.jobs[t], role) && s.jobs[t].at.tmp != Perform(s.board, role)
  }

  // Increments can only be lost, and a count that has fallen behind never catches up: no loaded
  // value is ahead of the count by then.
  ghost predicate Lagging(s: State, role: Role) {
    && Perform(s.board, role) <= Increments(s, role)
    && forall t :: 0 <= t < |s.jobs| && Storing(s.jobs[t], role) ==>
         s.jobs[t].at.tmp <= Increments(s, role) - Bit(Perform(s.board, role) < Increments(s, role))
  }

  lemma InitLagging(cap: nat, n: nat, role: Role)
    ensures Lagging(Init(cap, n), role) && Perform(Init(cap, n).board, role) == Increments(Init(cap, n), role)
  {
    CountNone(Init(cap, n).jobs, CountedInAs(role));
  }

  // What a step inside adds to the completed increments.
  lemma IncrementsStep(s: State, t: nat, role: Role)
    requires t < |s.jobs| && CanAccess(s, t)
    ensures Increments(Access(s, t), role) == Increments(s, role) + Bit(Storing(s.jobs[t], role))
  {
    var s' := Access(s, t);
    CountUpdate(s.jobs, t, s'.jobs[t], CountedInAs(role));
    if s'.log != s.log {
      ServedAppend(s.log, Event(t, s.jobs[t].op, Answer(s'.jobs[t].at)), role);
    }
  }

  // A step inside keeps a count exact if and only if it is not a stale store, and a count that is
  // not exact stays behind.
  lemma StepCounted(s: State, t: nat, role: Role)
    requires Lagging(s, role) && t < |s.jobs| && CanAccess(s, t)
    ensures var s' := Access(s, t);
            && Lagging(s', role)
            && (Perform(s'.board, role) == Increments(s', role) <==>
                  Perform(s.board, role) == Increments(s, role) && !Stale(s, t, role))
  {
    IncrementsStep(s, t, role);
  }

  // Requests that change outside their critical section, and answers to negative numbers.
  lemma OutsideCounted(s: State, t: nat, job: Job, role: Role)
    requires t < |s.jobs| && !CountedIn(s.jobs[t]) && !CountedIn(job) && !Storing(job, role)
    ensures var s' := s.(jobs := s.jobs[t := job]);
            Increments(s', role) == Increments(s, role) && (Lagging(s, role) ==> Lagging(s', role))
  {
    CountUpdate(s.jobs, t, job, CountedInAs(role));
  }

  lemma RejectCounted(s: State, t: nat, item: int, role: Role)
    requires t < |s.jobs| == |s.past|
    ensures Increments(Reject(s, t, item), role) == Increments(s, role)
    ensures Lagging(s, role) ==> Lagging(Reject(s, t, item), role)
  {
    InvalidNotServed(s, Event(t, Enqueue(item), Invalid), role);
    assert Reject(s, t, item).log == s.log + [Event(t, Enqueue(item), Invalid)];
  }

  lemma InvalidNotServed(s: State, e: Event, role: Role)
    requires e.response.Invalid?
    ensures Served(s.log + [e], role) == Served(s.log, role)
  {
    ServedAppend(s.log, e, role);
  }

  lemma MoveCounted(s: State, t: nat, zone: Zone, role: Role)
    requires t < |s.jobs| == |s.past| && CanMove(s, t, zone)
    ensures var s' := Move(s, t, zone);
            Increments(s', role) == Increments(s, role) && (Lagging(s, role) ==> Lagging(s', role))
  {
    var job' := Move(s, t, zone).jobs[t];
    if job' != s.jobs[t] { OutsideCounted(s, t, job', role); }
  }

  // Two threads of a role load before either stores: the second store is stale, and between them they
  // add 1.
  lemma LoadLoadStoreStore(s: State, i: nat, j: nat, op: Op)
    requires i < |s.jobs| && j < |s.jobs| && i != j && 0 <= s.board.index < Cap(s) && Fits(op, LoadPerform)
    requires s.jobs[i] == s.jobs[j] == Running(op, LoadPerform)
    ensures CanAccess(s, i) && CanAccess(Access(s, i), j)
    ensures var s2 := Access(Access(s, i), j);
            && CanAccess(s2, i) && CanAccess(Access(s2, i), j)
            && Stale(Access(s2, i), j, RoleOf(op))
            && Perform(Access(Access(s2, i), j).board, RoleOf(op)) == Perform(s.board, RoleOf(op)) + 1
  {
  }

  // What the threads of the role that are about to store have loaded is still current.
  ghost predicate AllCurrent(s: State, role: Role) {
    forall t :: 0 <= t < |s.jobs| ==> !Stale(s, t, role)
  }

  lemma StepStaysCurrent(s: State, t: nat, role: Role)
    requires t < |s.jobs| && CanAccess(s, t) && AllCurrent(s, role)
    requires forall j :: 0 <= j < |s.jobs| && j != t && RoleOf(s.jobs[t].op) == role ==> !Storing(s.jobs[j], role)
    ensures AllCurrent(Access(s, t), role)
  {
    forall j | 0 <= j < |s.jobs|
      ensures !Stale(Access(s, t), j, role)
    {
      assert !Stale(s, j, role);
    }
  }
}
