// Runs of SYNC_SOLUTION 3: any interleaving of the steps of any threads, with arrivals at any time.
module Solution3Runs {
  import opened Counting
  import opened Zones
  import opened Solution3

  datatype Choice = Arrival(tid: nat, role: Role) | Advance(tid: nat)

  predicate CanDo(s: State, c: Choice) {
    c.tid < |s.pcs| && if c.Arrival? then s.pcs[c.tid].Idle? else CanGo(s, c.tid)
  }

  function Do(s: State, c: Choice): State
    requires CanDo(s, c)
  {
    if c.Arrival? then Arrive(s, c.tid, c.role) else Go(s, c.tid)
  }

  // Any thread may be chosen at any time, as often as it can step.
  predicate CanRun(s: State, sched: seq<Choice>)
    decreases |sched|, 0
  {
    sched == [] || (CanRun(s, sched[..|sched| - 1]) && CanDo(Run(s, sched[..|sched| - 1]), sched[|sched| - 1]))
  }

  function Run(s: State, sched: seq<Choice>): State
    requires CanRun(s, sched)
    decreases |sched|, 1
  {
    if sched == [] then s else Do(Run(s, sched[..|sched| - 1]), sched[|sched| - 1])
  }

  // Who arrives, and as what, in order.
  function Arrivals(sched: seq<Choice>): seq<(nat, Role)> {
    if sched == [] then []
    else
      var c := sched[|sched| - 1];
      Arrivals(sched[..|sched| - 1]) + (if c.Arrival? then [(c.tid, c.role)] else [])
  }

  lemma {:induction false} RunKeeps(s: State, sched: seq<Choice>)
    requires Inv(s) && CanRun(s, sched)
    ensures Inv(Run(s, sched)) && |Run(s, sched).pcs| == |s.pcs|
  {
    if sched != [] {
      var before, c := sched[..|sched| - 1], sched[|sched| - 1];
      RunKeeps(s, before);
      if c.Arrival? {
        ArriveKeeps(Run(s, before), c.tid, c.role);
      } else {
        GoKeeps(Run(s, before), c.tid);
      }
    }
  }

  // ---- The wake-up loop at lines 356-359, with anybody else moving in between ----

  predicate InLoop(pc: Pc) {
    pc.LeaveWriter? && (pc.w.Loop? || pc.w.Post?)
  }

  // Thread t is in the loop all through the run.
  predicate Looping(s: State, sched: seq<Choice>, t: nat)
    requires CanRun(s, sched)
  {
    && t < |Run(s, sched).pcs| && InLoop(Run(s, sched).pcs[t])
    && (sched == [] || Looping(s, sched[..|sched| - 1], t))
  }

  lemma LoopStep(s: State, c: Choice, t: nat)
    requires Inv(s) && CanDo(s, c) && t < |s.pcs| && InLoop(s.pcs[t])
    ensures Do(s, c).readersWaiting == s.readersWaiting
    ensures TokensR(Do(s, c)) == TokensR(s) + Bit(c == Advance(t) && s.pcs[t].w.Post?)
    ensures c != Advance(t) ==> Do(s, c).pcs[t] == s.pcs[t]
  {
    if c.Arrival? {
      ArriveKeeps(s, c.tid, c.role);
      assert ViewOf(Do(s, c)).tokR == ViewOf(s).tokR;
    } else {
      LoopIssuesAll(s, t, c.tid);
    }
  }

  // The index counts the tokens issued since the loop began.
  lemma {:induction false} LoopCounts(s: State, sched: seq<Choice>, t: nat)
    requires Inv(s) && CanRun(s, sched) && t < |s.pcs| && s.pcs[t] == LeaveWriter(Loop(0)) && Looping(s, sched, t)
    ensures Run(s, sched).readersWaiting == s.readersWaiting
    ensures TokensR(Run(s, sched)) == TokensR(s) + Run(s, sched).pcs[t].w.index
  {
    if sched != [] {
      var before := sched[..|sched| - 1];
      LoopCounts(s, before, t);
      RunKeeps(s, before);
      LoopStep(Run(s, before), sched[|sched| - 1], t);
    }
  }

  // From `index = 0` to the end of the same loop, whatever the others do meanwhile: as many tokens
  // are issued as readers wait, and they are the same number at the end as at the beginning.
  lemma LoopTotal(s: State, sched: seq<Choice>, t: nat)
    requires Inv(s) && t < |s.pcs| && s.pcs[t] == LeaveWriter(Loop(0))
    requires sched != [] && CanRun(s, sched) && Looping(s, sched[..|sched| - 1], t)
    requires !InLoop(Run(s, sched).pcs[t])
    ensures Run(s, sched).pcs[t] == LeaveWriter(WUp)
    ensures Run(s, sched).readersWaiting == s.readersWaiting == Count(s.pcs, WaitingReader)
    ensures TokensR(Run(s, sched)) == TokensR(s) + s.readersWaiting
  {
    var before, c := sched[..|sched| - 1], sched[|sched| - 1];
    LoopCounts(s, before, t);
    RunKeeps(s, before);
    LoopStep(Run(s, before), c, t);
    LoopIssuesAll(Run(s, before), t, t);
  }

  // ---- Whom a leaving thread lets in: lines 354-364 and 393-396, with anybody else moving in between ----

  // Past the decrement of its counter, and not yet at up(SemaphoreMutex).
  predicate Deciding(pc: Pc) {
    (pc.LeaveWriter? && (pc.w.WTest? || pc.w.Loop? || pc.w.Post? || pc.w.Else? || pc.w.WWake?)) ||
    (pc.LeaveReader? && (pc.r.RTest? || pc.r.RWake?))
  }

  predicate DecidingUntil(s: State, sched: seq<Choice>, t: nat)
    requires CanRun(s, sched) && t < |s.pcs|
  {
    sched == [] ||
    (var before := sched[..|sched| - 1];
     && DecidingUntil(s, before, t)
     && t < |Run(s, before).pcs| && Deciding(Run(s, before).pcs[t]))
  }

  // What it has done so far: v is what it found, v' what it has made of it.
  predicate HandingOver(v: View, v': View, role: Role, pc: Pc) {
    match pc
    case LeaveWriter(w) => role.WriterRole? && (
      match w
      case WTest => v' == v
      case Loop(index) => 0 < v.rw && 0 <= index <= v.rw && v' == v.(tokR := v.tokR + index)
      case Post(index) => 0 <= index < v.rw && v' == v.(tokR := v.tokR + index)
      case Else => v.rw <= 0 && v' == v
      case WWake => v.rw <= 0 < v.ww && v' == v
      case WUp => v' == HandedOver(v, WriterRole)
      case _ => false)
    case LeaveReader(r) => role.ReaderRole? && (
      match r
      case RTest => v' == v
      case RWake => v.rc == 0 && v.ww > 0 && v' == v
      case RUp => v' == HandedOver(v, ReaderRole)
      case _ => false)
    case _ => false
  }

  // A writer lets in all readers that wait, or else one writer; a reader that is the last one, one writer.
  function HandedOver(v: View, role: Role): View {
    if role.WriterRole? && v.rw > 0 then v.(tokR := v.tokR + v.rw)
    else if v.ww > 0 && (role.WriterRole? || v.rc == 0) then v.(tokW := v.tokW + 1)
    else v
  }

  lemma DecidingStep(s: State, c: Choice, t: nat, v: View, role: Role)
    requires Inv(s) && CanDo(s, c) && t < |s.pcs| && Deciding(s.pcs[t])
    requires HandingOver(v, ViewOf(s), role, s.pcs[t])
    ensures HandingOver(v, ViewOf(Do(s, c)), role, Do(s, c).pcs[t])
  {
    OnlyHolder(s, t);
    if c.Arrival? {
      ArriveKeeps(s, c.tid, c.role);
    } else {
      ViewStep(s, c.tid);
      if c.tid != t { FreeEffect(ViewOf(s), s.pcs[c.tid]); }
    }
  }

  lemma {:induction false} HandsOver(s: State, sched: seq<Choice>, t: nat, role: Role)
    requires Inv(s) && CanRun(s, sched) && t < |s.pcs| && DecidingUntil(s, sched, t)
    requires s.pcs[t] == if role.WriterRole? then LeaveWriter(WTest) else LeaveReader(RTest)
    ensures |Run(s, sched).pcs| == |s.pcs|
    ensures HandingOver(ViewOf(s), ViewOf(Run(s, sched)), role, Run(s, sched).pcs[t])
  {
    if sched != [] {
      var before := sched[..|sched| - 1];
      HandsOver(s, before, t, role);
      RunKeeps(s, sched);
      RunKeeps(s, before);
      DecidingStep(Run(s, before), sched[|sched| - 1], t, ViewOf(s), role);
    }
  }

  // Whom a thread that leaves lets in, whatever the others do meanwhile: a writer lets in every reader that
  // waits, or if none does one writer; the last reader lets in one writer; and nobody else is let in.
  lemma LetsIn(s: State, sched: seq<Choice>, t: nat, role: Role)
    requires Inv(s) && CanRun(s, sched) && t < |s.pcs| && DecidingUntil(s, sched, t)
    requires s.pcs[t] == if role.WriterRole? then LeaveWriter(WTest) else LeaveReader(RTest)
    requires t < |Run(s, sched).pcs| && !Deciding(Run(s, sched).pcs[t])
    ensures var s', readers, writers := Run(s, sched), Count(s.pcs, WaitingReader), Count(s.pcs, WaitingWriter);
            && s'.pcs[t] == (if role.WriterRole? then LeaveWriter(WUp) else LeaveReader(RUp))
            && s'.readersWaiting == readers && s'.writersWaiting == writers
            && TokensR(s') == TokensR(s) + (if role.WriterRole? then readers else 0)
            && TokensW(s') == TokensW(s) + Bit(writers > 0 && if role.WriterRole? then readers == 0
                                                              else Count(s.pcs, CountedReader) == 0)
  {
    HandsOver(s, sched, t, role);
  }

  // ---- How many readers can overtake a waiting writer ----

  // All through the run a writer waits, and nobody executes line 358.
  predicate WriterWaits(s: State, sched: seq<Choice>)
    requires CanRun(s, sched)
  {
    sched == [] ||
    (var before, c := sched[..|sched| - 1], sched[|sched| - 1];
     && WriterWaits(s, before)
     && Run(s, before).writersWaiting > 0
     && !(c.Advance? && Run(s, before).pcs[c.tid].LeaveWriter? && Run(s, before).pcs[c.tid].w.Post?))
  }

  predicate ReaderEnters(s: State, c: Choice)
    requires CanDo(s, c)
  {
    && c.Advance?
    && ZoneAt(s.pcs[c.tid]) == Entering(ReaderRole) && ZoneAt(Go(s, c.tid).pcs[c.tid]) == Inside(ReaderRole)
  }

  function ReaderEntries(s: State, sched: seq<Choice>): nat
    requires CanRun(s, sched)
  {
    if sched == [] then 0
    else
      var before := sched[..|sched| - 1];
      ReaderEntries(s, before) + Bit(ReaderEnters(Run(s, before), sched[|sched| - 1]))
  }

  // Bounded bypass, from any state: as many readers get in before the writer as are at 328-329 or have a
  // token when it begins to wait, less those that still are or have one.
  lemma {:induction false} BoundedBypass(s: State, sched: seq<Choice>)
    requires CanRun(s, sched) && WriterWaits(s, sched)
    ensures ReaderEntries(s, sched) + Overtakers(Run(s, sched)) == Overtakers(s)
  {
    if sched != [] {
      var before, c := sched[..|sched| - 1], sched[|sched| - 1];
      BoundedBypass(s, before);
      if c.Arrival? {
        OvertakersArrive(Run(s, before), c.tid, c.role);
      } else {
        OvertakersStep(Run(s, before), c.tid);
      }
    }
  }

  // ---- Putting runs together ----

  lemma {:induction false} RunConcat(s: State, first: seq<Choice>, second: seq<Choice>)
    requires CanRun(s, first) && CanRun(Run(s, first), second)
    ensures CanRun(s, first + second) && Run(s, first + second) == Run(Run(s, first), second)
  {
    if second == [] {
      assert first + second == first;
    } else {
      RunConcat(s, first, second[..|second| - 1]);
      assert (first + second)[..|first + second| - 1] == first + second[..|second| - 1];
    }
  }

  lemma {:induction false} ArrivalsConcat(first: seq<Choice>, second: seq<Choice>)
    ensures Arrivals(first + second) == Arrivals(first) + Arrivals(second)
  {
    if second == [] {
      assert first + second == first;
    } else {
      ArrivalsConcat(first, second[..|second| - 1]);
      assert (first + second)[..|first + second| - 1] == first + second[..|second| - 1];
    }
  }

  // The first k steps of a schedule, the next one, and then another schedule.
  lemma CutAndContinue(s: State, sched: seq<Choice>, k: nat, more: seq<Choice>)
    requires k < |sched| && CanRun(s, sched[..k]) && CanDo(Run(s, sched[..k]), sched[k])
    requires CanRun(Do(Run(s, sched[..k]), sched[k]), more)
    ensures CanRun(s, sched[..k + 1] + more)
    ensures Run(s, sched[..k + 1] + more) == Run(Do(Run(s, sched[..k]), sched[k]), more)
    ensures sched[..k + 1] <= sched[..k + 1] + more
    ensures Arrivals(sched[..k + 1] + more) == Arrivals(sched[..k + 1]) + Arrivals(more)
  {
    assert sched[..k + 1][..k] == sched[..k];
    RunConcat(s, sched[..k + 1], more);
    ArrivalsConcat(sched[..k + 1], more);
  }
}
