// SYNC_SOLUTION 1 of lab2/KboardModule.c: readers share one switch on SemaphoreWriter,
// a writer takes SemaphoreWriter directly.
module Solution1 {
  import opened Counting
  import opened Zones
  import Switch

  datatype Pc =
    | Idle
    | WriterDown            // line 267
    | WriterInside
    | WriterUp              // line 337
    | Reader(at: Switch.Pc) // lines 299-305, the critical section (On), lines 373-379

  datatype State = State(mutex: nat, writer: nat, readerCount: int, pcs: seq<Pc>)

  // InitializeSyncSolution with n threads, none of them in the module.
  function Init(n: nat): State {
    State(1, 1, 0, seq(n, i => Idle))
  }

  function ReaderAt(pc: Pc): Switch.Pc {
    if pc.Reader? then pc.at else Switch.Out
  }

  function Readers(pcs: seq<Pc>): (r: seq<Switch.Pc>)
    ensures |r| == |pcs|
  {
    seq(|pcs|, i requires 0 <= i < |pcs| => ReaderAt(pcs[i]))
  }

  function ZoneAt(pc: Pc): Zone {
    match pc
    case Idle => Outside
    case WriterDown => Entering(WriterRole)
    case WriterInside => Inside(WriterRole)
    case WriterUp => Leaving(WriterRole)
    case Reader(at) => Switch.MemberZone(ReaderRole, at)
  }

  function Arrive(s: State, t: nat, role: Role): State
    requires t < |s.pcs|
  {
    s.(pcs := s.pcs[t := if role.WriterRole? then WriterDown else Reader(Switch.Down)])
  }

  predicate CanGo(s: State, t: nat)
    requires t < |s.pcs|
  {
    match s.pcs[t]
    case Idle => false
    case WriterDown => s.writer > 0
    case WriterInside => true
    case WriterUp => true
    case Reader(at) => Switch.CanStep(Switch.Vars(s.mutex, s.readerCount, s.writer), at)
  }

  function Go(s: State, t: nat): State
    requires t < |s.pcs| && CanGo(s, t)
  {
    match s.pcs[t]
    case WriterDown => s.(writer := s.writer - 1, pcs := s.pcs[t := WriterInside])
    case WriterInside => s.(pcs := s.pcs[t := WriterUp])
    case WriterUp => s.(writer := s.writer + 1, pcs := s.pcs[t := Idle])
    case Reader(at) =>
      var (v, at') := Switch.Step(Switch.Vars(s.mutex, s.readerCount, s.writer), at);
      State(v.mutex, v.room, v.count, s.pcs[t := if at'.Out? then Idle else Reader(at')])
  }

  function Rank(pc: Pc): nat {
    match pc
    case Idle => 0
    case WriterDown => 3
    case WriterInside => 2
    case WriterUp => 1
    case Reader(at) => Switch.Rank(at)
  }

  // A writer between down(SemaphoreWriter) and up(SemaphoreWriter).
  predicate WriterHolds(pc: Pc) {
    pc.WriterInside? || pc.WriterUp?
  }

  // The single unit of SemaphoreWriter is free, with one writer, or with the readers as a group.
  ghost predicate Inv(s: State) {
    && Switch.Inv(s.mutex, s.readerCount, Readers(s.pcs))
    && s.writer + Count(s.pcs, WriterHolds) + Bit(Switch.Held(s.readerCount, Readers(s.pcs))) == 1
    && forall i :: 0 <= i < |s.pcs| ==> s.pcs[i] != Reader(Switch.Out)
  }

  lemma InitInv(n: nat)
    ensures Inv(Init(n))
  {
    Switch.InitInv(Readers(Init(n).pcs));
    CountNone(Init(n).pcs, WriterHolds);
  }

  lemma ReadersUpdate(pcs: seq<Pc>, t: nat, pc: Pc)
    requires t < |pcs|
    ensures Readers(pcs[t := pc]) == Readers(pcs)[t := ReaderAt(pc)]
    ensures ReaderAt(pc) == ReaderAt(pcs[t]) ==> Readers(pcs[t := pc]) == Readers(pcs)
  {
  }

  lemma ArriveKeeps(s: State, t: nat, role: Role)
    requires Inv(s) && t < |s.pcs| && s.pcs[t].Idle?
    ensures Inv(Arrive(s, t, role))
  {
    var pc' := Arrive(s, t, role).pcs[t];
    ReadersUpdate(s.pcs, t, pc');
    CountUpdate(s.pcs, t, pc', WriterHolds);
    if role.ReaderRole? {
      Switch.ArriveKeeps(s.mutex, s.readerCount, Readers(s.pcs), t);
    }
  }

  lemma GoKeeps(s: State, t: nat)
    requires Inv(s) && t < |s.pcs| && CanGo(s, t)
    ensures Inv(Go(s, t))
  {
    var pc' := Go(s, t).pcs[t];
    ReadersUpdate(s.pcs, t, pc');
    CountUpdate(s.pcs, t, pc', WriterHolds);
    if s.pcs[t].Reader? {
      Switch.StepKeeps(Switch.Vars(s.mutex, s.readerCount, s.writer), Readers(s.pcs), t);
    }
  }

  function ZonesOf(s: State): (z: seq<Zone>)
    ensures |z| == |s.pcs|
  {
    seq(|s.pcs|, i requires 0 <= i < |s.pcs| => ZoneAt(s.pcs[i]))
  }

  lemma Exclusion(s: State)
    requires Inv(s)
    ensures Exclusive(ZonesOf(s))
  {
    forall i, j | 0 <= i < |s.pcs| && 0 <= j < |s.pcs| && i != j && ZoneAt(s.pcs[i]) == Inside(WriterRole)
      ensures !ZoneAt(s.pcs[j]).Inside?
    {
      CountAtLeastOne(s.pcs, i, WriterHolds);
      if s.pcs[j].WriterInside? {
        CountUnique(s.pcs, i, j, WriterHolds);
      } else if s.pcs[j] == Reader(Switch.On) {
        assert Readers(s.pcs)[j] == Switch.On;
        Switch.GrantedImpliesHeld(s.mutex, s.readerCount, Readers(s.pcs), j);
      }
    }
  }

  // A reader blocked at line 303 holds SemaphoreMutex, but then the readers do not hold
  // SemaphoreWriter, so a writer that can step does.
  lemma Progress(s: State) returns (t: nat)
    requires Inv(s) && exists i :: 0 <= i < |s.pcs| && !s.pcs[i].Idle?
    ensures t < |s.pcs| && !s.pcs[t].Idle? && CanGo(s, t)
  {
    var readers := Readers(s.pcs);
    if Count(s.pcs, WriterHolds) > 0 {
      t := CountWitness(s.pcs, WriterHolds);
    } else if s.mutex == 0 {
      t := Switch.HolderMoves(Switch.Vars(s.mutex, s.readerCount, s.writer), readers);
    } else if Switch.Held(s.readerCount, readers) {
      t := Switch.HeldHasMember(s.mutex, s.readerCount, readers);
    } else {
      t :| 0 <= t < |s.pcs| && !s.pcs[t].Idle?;
      assert readers[t] == ReaderAt(s.pcs[t]);
    }
  }

  // Whoever is blocked is blocked by another thread, at most these: a writer at 267 by a writer inside or
  // leaving, or by a reader for whom the readers own the room; the reader at 303 by such a writer; a
  // reader at 299 or 373 by a reader between its down and its up.
  lemma BlockedByOwner(s: State, t: nat) returns (i: nat)
    requires Inv(s) && t < |s.pcs| && !s.pcs[t].Idle? && !CanGo(s, t)
    ensures i < |s.pcs| && i != t
    ensures s.pcs[t].WriterDown? || s.pcs[t] == Reader(Switch.Acquire) ||
            s.pcs[t] == Reader(Switch.Down) || s.pcs[t] == Reader(Switch.ExitDown)
    ensures s.pcs[t].WriterDown? ==>
              WriterHolds(s.pcs[i]) || Switch.Granted(ReaderAt(s.pcs[i])) || Switch.Departing(ReaderAt(s.pcs[i]))
    ensures s.pcs[t] == Reader(Switch.Acquire) ==> WriterHolds(s.pcs[i])
    ensures s.pcs[t] == Reader(Switch.Down) || s.pcs[t] == Reader(Switch.ExitDown) ==>
              Switch.HoldsMutex(ReaderAt(s.pcs[i]))
  {
    var readers := Readers(s.pcs);
    assert readers[t] == ReaderAt(s.pcs[t]);
    if s.pcs[t] == Reader(Switch.Down) || s.pcs[t] == Reader(Switch.ExitDown) {
      i := CountWitness(readers, Switch.HoldsMutex);
    } else if Count(s.pcs, WriterHolds) > 0 {
      i := CountWitness(s.pcs, WriterHolds);
    } else {
      Switch.JoinerIsNotHeld(s.mutex, s.readerCount, readers, t);
      i := Switch.HeldHasMember(s.mutex, s.readerCount, readers);
    }
  }

  // Readers share: a reader on its way in among readers inside is never blocked.
  lemma ReadersShare(s: State, t: nat)
    requires Inv(s) && t < |s.pcs| && AmongReaders(ZonesOf(s), t) && ZonesOf(s)[t] == Entering(ReaderRole)
    ensures CanGo(s, t)
  {
    var readers := Readers(s.pcs);
    forall i | 0 <= i < |s.pcs| && i != t
      ensures s.pcs[i].Idle? || s.pcs[i] == Reader(Switch.On)
    {
      assert ZonesOf(s)[i] == ZoneAt(s.pcs[i]);
    }
    assert s.pcs[t] == Reader(readers[t]);
    CountNone(s.pcs, WriterHolds);
    Switch.InsideDoNotHinder(Switch.Vars(s.mutex, s.readerCount, s.writer), readers, t);
  }

  // With everybody outside, every semaphore and counter is back at its initial value.
  lemma AtRest(s: State)
    requires Inv(s) && forall i :: 0 <= i < |s.pcs| ==> s.pcs[i].Idle?
    ensures s == Init(|s.pcs|)
  {
    Switch.EmptyAtRest(s.mutex, s.readerCount, Readers(s.pcs));
    CountNone(s.pcs, WriterHolds);
  }

  lemma GoDescends(s: State, t: nat)
    requires t < |s.pcs| && CanGo(s, t)
    ensures Rank(Go(s, t).pcs[t]) < Rank(s.pcs[t])
    ensures Advances(ZoneAt(s.pcs[t]), ZoneAt(Go(s, t).pcs[t]))
  {
  }
}
