// When SYNC_SOLUTION 3 excludes. Line 395 wakes a writer whenever the last reader inside leaves and
// writers wait, also when another reader still holds an unused token from line 358. If that
// happens both can end up inside; if it never happens, nobody meets a writer.
module Solution3Exclusion {
  import opened Counting
  import opened Zones
  import opened Solution3
  import opened Solution3Runs
  import opened Solution3Trails

  // At most one writer is in or about to be, and then no reader is; no token without a waiter.
  predicate Excluding(v: View) {
    && v.wc + v.tokW <= 1
    && v.tokR <= v.rw
    && v.tokW <= v.ww
    && (v.wc + v.tokW == 1 ==> v.rc == 0 && v.tokR == 0)
  }

  // What the mutex holder knows in addition, at each point of its section.
  predicate Alone(v: View, pc: Pc) {
    match pc
    case Idle => true
    case Enter(role, at) =>
      at.Load? || at.Store? ==> v.wc == 0 && v.tokW == 0 && (role.WriterRole? ==> v.rc == 0 && v.tokR == 0)
    case In(_) => true
    case LeaveWriter(w) =>
      && (w.WTest? || w.Else? || w.WWake? ==> v.wc == 0 && v.tokW == 0 && v.rc == 0 && v.tokR == 0)
      && (w.Loop? || w.Post? ==> v.wc == 0 && v.tokW == 0 && v.rc == 0 && v.tokR == w.index)
    case LeaveReader(r) =>
      && (r.RTest? || r.RWake? ==> v.wc == 0 && v.tokW == 0)
      && (r.RWake? ==> v.rc == 0 && v.ww > 0)
  }

  ghost predicate AllAlone(v: View, pcs: seq<Pc>) {
    forall i :: 0 <= i < |pcs| ==> Alone(v, pcs[i])
  }

  ghost predicate ExclusionInv(s: State) {
    && Inv(s)
    && Excluding(ViewOf(s))
    && AllAlone(ViewOf(s), s.pcs)
  }

  // Line 395 is about to wake a writer although some reader's token is not used up.
  predicate UnsafeWake(s: State, t: nat) {
    t < |s.pcs| && s.pcs[t] == LeaveReader(RWake) && TokensR(s) > 0
  }

  lemma InitExclusion(n: nat)
    ensures ExclusionInv(Init(n))
  {
    InitInv(n);
  }

  lemma LocalExclusion(s: State, pc: Pc)
    requires Unblocked(s, pc) && Mid(ViewOf(s), pc)
    requires Excluding(ViewOf(s)) && Alone(ViewOf(s), pc)
    requires s.writerCount >= Bit(CountedWriter(pc)) && s.readerCount >= Bit(CountedReader(pc))
    requires TokensW(s) >= Bit(WokenWriter(pc)) && TokensR(s) >= Bit(WokenReader(pc))
    requires s.writersWaiting >= 0 && s.readersWaiting >= 0
    requires pc == LeaveReader(RWake) ==> TokensR(s) == 0
    ensures Excluding(Effect(ViewOf(s), pc))
    ensures Alone(Effect(ViewOf(s), pc), Successor(s, pc))
  {
  }

  lemma FreeAlone(v: View, pc: Pc)
    requires !HoldsMutex(pc)
    ensures Alone(v, pc)
  {
  }

  lemma AllAloneUpdate(v: View, v': View, pcs: seq<Pc>, t: nat, pc: Pc)
    requires AllAlone(v, pcs) && t < |pcs| && Alone(v', pc)
    requires v' == v || forall i :: 0 <= i < |pcs| && i != t ==> !HoldsMutex(pcs[i])
    ensures AllAlone(v', pcs[t := pc])
  {
    var pcs' := pcs[t := pc];
    forall i | 0 <= i < |pcs'|
      ensures Alone(v', pcs'[i])
    {
      if i != t && v' != v { FreeAlone(v', pcs[i]); }
    }
  }

  // A thread is among those its counter counts.
  lemma CountedItself(s: State, t: nat)
    requires Inv(s) && t < |s.pcs|
    ensures s.writerCount >= Bit(CountedWriter(s.pcs[t])) && s.readerCount >= Bit(CountedReader(s.pcs[t]))
    ensures TokensW(s) >= Bit(WokenWriter(s.pcs[t])) && TokensR(s) >= Bit(WokenReader(s.pcs[t]))
  {
    var pc := s.pcs[t];
    if CountedWriter(pc) { CountAtLeastOne(s.pcs, t, CountedWriter); }
    if CountedReader(pc) { CountAtLeastOne(s.pcs, t, CountedReader); }
    if WokenWriter(pc) { CountAtLeastOne(s.pcs, t, WokenWriter); }
    if WokenReader(pc) { CountAtLeastOne(s.pcs, t, WokenReader); }
  }

  // Every step other than an unsafe wake keeps the exclusion invariant, unconditionally.
  lemma SafeStepKeeps(s: State, t: nat)
    requires ExclusionInv(s) && t < |s.pcs| && CanGo(s, t) && !UnsafeWake(s, t)
    ensures ExclusionInv(Go(s, t))
  {
    var s', pc := Go(s, t), s.pcs[t];
    CountedItself(s, t);
    LocalExclusion(s, pc);
    GoKeeps(s, t);
    ViewStep(s, t);
    if HoldsMutex(pc) { OnlyHolder(s, t); } else { FreeEffect(ViewOf(s), pc); }
    AllAloneUpdate(ViewOf(s), ViewOf(s'), s.pcs, t, s'.pcs[t]);
  }

  lemma ArriveKeepsExclusion(s: State, t: nat, role: Role)
    requires ExclusionInv(s) && t < |s.pcs| && s.pcs[t].Idle?
    ensures ExclusionInv(Arrive(s, t, role))
  {
    ArriveKeeps(s, t, role);
    AllAloneUpdate(ViewOf(s), ViewOf(s), s.pcs, t, Enter(role, Down));
  }

  // Line 395 keeps the invariant exactly when no reader token is outstanding.
  lemma WakeKeepsExactlyWhenSafe(s: State, t: nat)
    requires ExclusionInv(s) && t < |s.pcs| && s.pcs[t] == LeaveReader(RWake)
    ensures ExclusionInv(Go(s, t)) <==> TokensR(s) == 0
  {
    ViewStep(s, t);
    if TokensR(s) == 0 { SafeStepKeeps(s, t); }
  }

  // With a writer inside, another thread inside would be a second writer or a reader; the view has
  // room for neither.
  lemma WriterAlone(s: State, i: nat, j: nat)
    requires Exact(s) && Excluding(ViewOf(s))
    requires i < |s.pcs| && j < |s.pcs| && i != j && s.pcs[i] == In(WriterRole)
    ensures !s.pcs[j].In?
  {
    CountAtLeastOne(s.pcs, i, CountedWriter);
    if s.pcs[j].In? {
      if s.pcs[j].role.WriterRole? {
        assert CountedWriter(s.pcs[j]);
        CountUnique(s.pcs, i, j, CountedWriter);
      } else {
        assert CountedReader(s.pcs[j]);
        CountAtLeastOne(s.pcs, j, CountedReader);
      }
    }
  }

  lemma Exclusion(s: State)
    requires ExclusionInv(s)
    ensures Exclusive(ZonesOf(s))
  {
    forall i, j | 0 <= i < |s.pcs| && 0 <= j < |s.pcs| && i != j && s.pcs[i] == In(WriterRole)
      ensures !s.pcs[j].In?
    {
      WriterAlone(s, i, j);
    }
  }

  // With everybody outside, the token semaphores are back at 0 too.
  lemma AtRestExactly(s: State)
    requires ExclusionInv(s) && forall i :: 0 <= i < |s.pcs| ==> s.pcs[i].Idle?
    ensures s == Init(|s.pcs|)
  {
    AtRest(s);
  }

  // An unsafe wake takes three threads: the reader that leaves, a reader that waits with a token
  // issued for it, and a writer that waits.
  lemma UnsafeWakeNeedsThree(s: State, t: nat) returns (r: nat, w: nat)
    requires ExclusionInv(s) && UnsafeWake(s, t)
    ensures r < |s.pcs| && WaitingReader(s.pcs[r])
    ensures w < |s.pcs| && WaitingWriter(s.pcs[w])
    ensures r != t && r != w && w != t && |s.pcs| >= 3
  {
    r := CountWitness(s.pcs, WaitingReader);
    assert Alone(ViewOf(s), s.pcs[t]);
    w := CountWitness(s.pcs, WaitingWriter);
  }

  // ---- Safe runs ----

  predicate UnsafeChoice(s: State, c: Choice) {
    c.Advance? && UnsafeWake(s, c.tid)
  }

  // The run never executes line 395 while a reader token is outstanding.
  predicate SafeRun(s: State, sched: seq<Choice>)
    requires CanRun(s, sched)
  {
    sched == [] ||
    (SafeRun(s, sched[..|sched| - 1]) && !UnsafeChoice(Run(s, sched[..|sched| - 1]), sched[|sched| - 1]))
  }

  lemma Then(s: State, sched: seq<Choice>, c: Choice)
    requires CanRun(s, sched) && CanDo(Run(s, sched), c)
    ensures CanRun(s, sched + [c]) && Run(s, sched + [c]) == Do(Run(s, sched), c)
    ensures SafeRun(s, sched + [c]) <==> SafeRun(s, sched) && !UnsafeChoice(Run(s, sched), c)
    ensures Arrivals(sched + [c]) == Arrivals(sched) + (if c.Arrival? then [(c.tid, c.role)] else [])
  {
    assert (sched + [c])[..|sched|] == sched;
  }

  lemma {:induction false} SafeRunExcludes(s: State, sched: seq<Choice>)
    requires ExclusionInv(s) && CanRun(s, sched) && SafeRun(s, sched)
    ensures ExclusionInv(Run(s, sched)) && Exclusive(ZonesOf(Run(s, sched)))
    ensures |Run(s, sched).pcs| == |s.pcs|
  {
    if sched != [] {
      var before, c := sched[..|sched| - 1], sched[|sched| - 1];
      SafeRunExcludes(s, before);
      if c.Arrival? {
        ArriveKeepsExclusion(Run(s, before), c.tid, c.role);
      } else {
        SafeStepKeeps(Run(s, before), c.tid);
      }
    }
    Exclusion(Run(s, sched));
  }

  // ---- From an unsafe wake to two threads inside ----

  // Whenever line 395 is executed with a reader token outstanding, the threads already there, and
  // no others, can go on from that very step until a writer and a reader are inside together.
  lemma UnsafeWakeOverlaps(s: State, t: nat) returns (more: seq<Choice>)
    requires ExclusionInv(s) && UnsafeWake(s, t)
    ensures CanRun(Go(s, t), more) && Arrivals(more) == []
    ensures Overlap(ZonesOf(Run(Go(s, t), more)))
  {
    var w := SleepingWriter(s, t);
    var reader := TokenHolder(s, t);
    var woken := Go(s, t);
    var r := ReaderIsGone(woken, Trail([], woken, []), t);
    r := BothEnter(woken, r, w, reader);
    more := r.sched;
  }

  lemma BothEnter(s: State, r: Trail, w: nat, reader: nat) returns (r': Trail)
    requires From(s, r) && r.end.mutex == 1
    requires Stands(r, w, Enter(WriterRole, Sleep)) && r.end.writer > 0
    requires Stands(r, reader, Enter(ReaderRole, Redown)) ||
             (Stands(r, reader, Enter(ReaderRole, Sleep)) && r.end.reader > 0)
    ensures From(s, r') && r'.calls == r.calls && Overlap(ZonesOf(r'.end))
    ensures Stands(r', w, In(WriterRole)) && Stands(r', reader, In(ReaderRole)) && |r'.end.pcs| == |r.end.pcs|
  {
    r' := SleeperEnters(s, r, w, WriterRole);
    if r'.end.pcs[reader] == Enter(ReaderRole, Sleep) {
      r' := SleeperEnters(s, r', reader, ReaderRole);
    } else {
      r' := WokenEnters(s, r', reader, ReaderRole);
    }
    assert ZonesOf(r'.end)[w] == Inside(WriterRole) && ZonesOf(r'.end)[reader] == Inside(ReaderRole);
  }

  // With the mutex taken at line 395, a writer that waits has no token yet: it sleeps.
  lemma SleepingWriter(s: State, t: nat) returns (w: nat)
    requires ExclusionInv(s) && UnsafeWake(s, t)
    ensures s.mutex == 0 && w < |s.pcs| && w != t && s.pcs[w] == Enter(WriterRole, Sleep)
  {
    OnlyHolder(s, t);
    assert Alone(ViewOf(s), s.pcs[t]);
    w := CountWitness(s.pcs, WaitingWriter);
    if WokenWriter(s.pcs[w]) { CountAtLeastOne(s.pcs, w, WokenWriter); }
  }

  // And with a reader token outstanding, some reader can use it.
  lemma TokenHolder(s: State, t: nat) returns (i: nat)
    requires ExclusionInv(s) && UnsafeWake(s, t)
    ensures i < |s.pcs| && i != t
    ensures s.pcs[i] == Enter(ReaderRole, Redown) || (s.pcs[i] == Enter(ReaderRole, Sleep) && s.reader > 0)
  {
    OnlyHolder(s, t);
    if Count(s.pcs, WokenReader) > 0 {
      i := CountWitness(s.pcs, WokenReader);
    } else {
      i := CountWitness(s.pcs, WaitingReader);
      if WokenReader(s.pcs[i]) { CountAtLeastOne(s.pcs, i, WokenReader); }
    }
  }

  // A run that is not safe has a safe prefix right before its first unsafe wake.
  lemma {:induction false} FirstUnsafe(s: State, sched: seq<Choice>) returns (k: nat)
    requires CanRun(s, sched) && !SafeRun(s, sched)
    ensures k < |sched| && CanRun(s, sched[..k]) && SafeRun(s, sched[..k])
    ensures UnsafeChoice(Run(s, sched[..k]), sched[k])
  {
    var last := |sched| - 1;
    if SafeRun(s, sched[..last]) {
      k := last;
    } else {
      k := FirstUnsafe(s, sched[..last]);
      assert sched[..last][..k] == sched[..k];
    }
  }

  // A run that is not safe, followed up to and including its first unsafe wake, can go on from there
  // without new arrivals until a writer and a reader are inside together.
  lemma UnsafeRunOverlaps(s: State, sched: seq<Choice>) returns (k: nat, sched': seq<Choice>)
    requires ExclusionInv(s) && CanRun(s, sched) && !SafeRun(s, sched)
    ensures k < |sched| && CanRun(s, sched[..k]) && SafeRun(s, sched[..k])
    ensures UnsafeChoice(Run(s, sched[..k]), sched[k])
    ensures sched[..k + 1] <= sched' && Arrivals(sched') == Arrivals(sched[..k + 1])
    ensures CanRun(s, sched') && Overlap(ZonesOf(Run(s, sched')))
  {
    k := FirstUnsafe(s, sched);
    SafeRunExcludes(s, sched[..k]);
    var more := UnsafeWakeOverlaps(Run(s, sched[..k]), sched[k].tid);
    CutAndContinue(s, sched, k, more);
    sched' := sched[..k + 1] + more;
  }

  ghost predicate ExcludesInEveryRun(s: State) {
    forall sched :: CanRun(s, sched) ==> Exclusive(ZonesOf(Run(s, sched)))
  }

  ghost predicate SafeInEveryRun(s: State) {
    forall sched :: CanRun(s, sched) ==> SafeRun(s, sched)
  }

  // Exactness, from any state the invariant describes: exclusion holds in every run if and only
  // if no run executes line 395 while a reader token is outstanding.
  lemma ExclusionExactlyWhenSafe(s: State)
    requires ExclusionInv(s)
    ensures ExcludesInEveryRun(s) <==> SafeInEveryRun(s)
  {
    if SafeInEveryRun(s) {
      forall sched | CanRun(s, sched)
        ensures Exclusive(ZonesOf(Run(s, sched)))
      {
        SafeRunExcludes(s, sched);
      }
    } else {
      var sched :| CanRun(s, sched) && !SafeRun(s, sched);
      var _, sched' := UnsafeRunOverlaps(s, sched);
      OverlapExcluded(ZonesOf(Run(s, sched')));
    }
  }
}
