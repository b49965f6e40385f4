// SYNC_SOLUTION 2 of lab2/KboardModule.c: writers share one switch on SemaphoreReader (the gate),
// readers share one switch on SemaphoreWriter, and every writer also takes SemaphoreWriter itself.
module Solution2 {
  import opened Counting
  import opened Zones
  import Switch

  datatype Pc =
    | Idle
    | Writer(at: Switch.Pc) // lines 270-276, then On is line 277; the exit part is lines 341-347
    | WriterInside
    | WriterUp              // line 340
    | GateDown              // line 308
    | GateUp                // line 309
    | Reader(at: Switch.Pc) // lines 310-316, the critical section (On), lines 382-388

  datatype State = State(
    writerMutex: nat, readerMutex: nat, writer: nat, reader: nat,
    writerCount: int, readerCount: int, pcs: seq<Pc>)

  // InitializeSyncSolution with n threads, none of them in the module.
  function Init(n: nat): State {
    State(1, 1, 1, 1, 0, 0, seq(n, i => Idle))
  }

  function WriterAt(pc: Pc): Switch.Pc {
    match pc
    case Writer(at) => at
    case WriterInside => Switch.On
    case WriterUp => Switch.On
    case _ => Switch.Out
  }

  function ReaderAt(pc: Pc): Switch.Pc {
    if pc.Reader? then pc.at else Switch.Out
  }

  function Writers(pcs: seq<Pc>): (r: seq<Switch.Pc>)
    ensures |r| == |pcs|
  {
    seq(|pcs|, i requires 0 <= i < |pcs| => WriterAt(pcs[i]))
  }

  function Readers(pcs: seq<Pc>): (r: seq<Switch.Pc>)
    ensures |r| == |pcs|
  {
    seq(|pcs|, i requires 0 <= i < |pcs| => ReaderAt(pcs[i]))
  }

  function ZoneAt(pc: Pc): Zone {
    match pc
    case Idle => Outside
    case Writer(at) => if at.On? then Entering(WriterRole) else Switch.MemberZone(WriterRole, at)
    case WriterInside => Inside(WriterRole)
    case WriterUp => Leaving(WriterRole)
    case GateDown => Entering(ReaderRole)
    case GateUp => Entering(ReaderRole)
    case Reader(at) => Switch.MemberZone(ReaderRole, at)
  }

  function WriterVars(s: State): Switch.Vars {
    Switch.Vars(s.writerMutex, s.writerCount, s.reader)
  }

  function ReaderVars(s: State): Switch.Vars {
    Switch.Vars(s.readerMutex, s.readerCount, s.writer)
  }

  function Arrive(s: State, t: nat, role: Role): State
    requires t < |s.pcs|
  {
    s.(pcs := s.pcs[t := if role.WriterRole? then Writer(Switch.Down) else GateDown])
  }

  predicate CanGo(s: State, t: nat)
    requires t < |s.pcs|
  {
    match s.pcs[t]
    case Idle => false
    case Writer(at) => if at.On? then s.writer > 0 else Switch.CanStep(WriterVars(s), at)
    case WriterInside => true
    case WriterUp => true
    case GateDown => s.reader > 0
    case GateUp => true
    case Reader(at) => Switch.CanStep(ReaderVars(s), at)
  }

  function Go(s: State, t: nat): State
    requires t < |s.pcs| && CanGo(s, t)
  {
    match s.pcs[t]
    case Writer(at) =>
      if at.On? then s.(writer := s.writer - 1, pcs := s.pcs[t := WriterInside])
      else
        var (v, at') := Switch.Step(WriterVars(s), at);
        s.(writerMutex := v.mutex, writerCount := v.count, reader := v.room,
           pcs := s.pcs[t := if at'.Out? then Idle else Writer(at')])
    case WriterInside => s.(pcs := s.pcs[t := WriterUp])
    case WriterUp => s.(writer := s.writer + 1, pcs := s.pcs[t := Writer(Switch.ExitDown)])
    case GateDown => s.(reader := s.reader - 1, pcs := s.pcs[t := GateUp])
    case GateUp => s.(reader := s.reader + 1, pcs := s.pcs[t := Reader(Switch.Down)])
    case Reader(at) =>
      var (v, at') := Switch.Step(ReaderVars(s), at);
      s.(readerMutex := v.mutex, readerCount := v.count, writer := v.room,
         pcs := s.pcs[t := if at'.Out? then Idle else Reader(at')])
  }

  function Rank(pc: Pc): nat {
    match pc
    case Idle => 0
    case Writer(at) => if Switch.Rank(at) > 6 then Switch.Rank(at) + 2 else Switch.Rank(at)
    case WriterInside => 8
    case WriterUp => 7
    case GateDown => 15
    case GateUp => 14
    case Reader(at) => Switch.Rank(at)
  }

  // A writer between down(SemaphoreWriter) and up(SemaphoreWriter).
  predicate WriterHolds(pc: Pc) {
    pc.WriterInside? || pc.WriterUp?
  }

  predicate InGate(pc: Pc) {
    pc.GateUp?
  }

  // Do the writers as a group hold SemaphoreReader?
  function GateClosed(s: State): bool {
    Switch.Held(s.writerCount, Writers(s.pcs))
  }

  ghost predicate Inv(s: State) {
    && Switch.Inv(s.writerMutex, s.writerCount, Writers(s.pcs))
    && Switch.Inv(s.readerMutex, s.readerCount, Readers(s.pcs))
    // the single unit of SemaphoreReader is free, with one reader at line 309, or with the writers
    && s.reader + Count(s.pcs, InGate) + Bit(GateClosed(s)) == 1
    // the single unit of SemaphoreWriter is free, with one writer, or with the readers
    && s.writer + Count(s.pcs, WriterHolds) + Bit(Switch.Held(s.readerCount, Readers(s.pcs))) == 1
    && Proper(s.pcs)
  }

  // Leaving a switch for good is Idle, not a member that is Out.
  ghost predicate Proper(pcs: seq<Pc>) {
    forall i :: 0 <= i < |pcs| ==> pcs[i] != Reader(Switch.Out) && pcs[i] != Writer(Switch.Out)
  }

  lemma InitInv(n: nat)
    ensures Inv(Init(n))
  {
    Switch.InitInv(Writers(Init(n).pcs));
    Switch.InitInv(Readers(Init(n).pcs));
    CountNone(Init(n).pcs, InGate);
    CountNone(Init(n).pcs, WriterHolds);
  }

  // What an update of one program counter does to the counts and projections of the invariant.
  lemma Moves(pcs: seq<Pc>, t: nat, pc: Pc)
    requires t < |pcs| && Proper(pcs) && pc != Reader(Switch.Out) && pc != Writer(Switch.Out)
    ensures Writers(pcs[t := pc]) == Writers(pcs)[t := WriterAt(pc)]
    ensures Readers(pcs[t := pc]) == Readers(pcs)[t := ReaderAt(pc)]
    ensures WriterAt(pc) == WriterAt(pcs[t]) ==> Writers(pcs[t := pc]) == Writers(pcs)
    ensures ReaderAt(pc) == ReaderAt(pcs[t]) ==> Readers(pcs[t := pc]) == Readers(pcs)
    ensures Count(pcs[t := pc], WriterHolds) + Bit(WriterHolds(pcs[t])) ==
            Count(pcs, WriterHolds) + Bit(WriterHolds(pc))
    ensures Count(pcs[t := pc], InGate) + Bit(InGate(pcs[t])) == Count(pcs, InGate) + Bit(InGate(pc))
    ensures Proper(pcs[t := pc])
  {
    CountUpdate(pcs, t, pc, WriterHolds);
    CountUpdate(pcs, t, pc, InGate);
  }

  lemma ArriveKeeps(s: State, t: nat, role: Role)
    requires Inv(s) && t < |s.pcs| && s.pcs[t].Idle?
    ensures Inv(Arrive(s, t, role))
    ensures GateClosed(Arrive(s, t, role)) == GateClosed(s)
  {
    Moves(s.pcs, t, Arrive(s, t, role).pcs[t]);
    if role.WriterRole? {
      Switch.ArriveKeeps(s.writerMutex, s.writerCount, Writers(s.pcs), t);
    }
  }

  lemma WriterSwitchKeeps(s: State, t: nat)
    requires Inv(s) && t < |s.pcs| && CanGo(s, t)
    requires (s.pcs[t].Writer? && !s.pcs[t].at.On?) || s.pcs[t].WriterUp?
    ensures Inv(Go(s, t))
  {
    Moves(s.pcs, t, Go(s, t).pcs[t]);
    Switch.StepKeeps(WriterVars(s), Writers(s.pcs), t);
  }

  lemma ReaderSwitchKeeps(s: State, t: nat)
    requires Inv(s) && t < |s.pcs| && CanGo(s, t) && s.pcs[t].Reader?
    ensures Inv(Go(s, t))
  {
    Moves(s.pcs, t, Go(s, t).pcs[t]);
    Switch.StepKeeps(ReaderVars(s), Readers(s.pcs), t);
  }

  lemma OtherStepKeeps(s: State, t: nat)
    requires Inv(s) && t < |s.pcs| && CanGo(s, t)
    requires s.pcs[t] == Writer(Switch.On) || s.pcs[t].WriterInside? || s.pcs[t].GateDown? || s.pcs[t].GateUp?
    ensures Inv(Go(s, t))
  {
    Moves(s.pcs, t, Go(s, t).pcs[t]);
    if s.pcs[t].GateUp? {
      Switch.ArriveKeeps(s.readerMutex, s.readerCount, Readers(s.pcs), t);
    }
  }

  lemma GoKeeps(s: State, t: nat)
    requires Inv(s) && t < |s.pcs| && CanGo(s, t)
    ensures Inv(Go(s, t))
  {
    var pc := s.pcs[t];
    if (pc.Writer? && !pc.at.On?) || pc.WriterUp? {
      WriterSwitchKeeps(s, t);
    } else if pc.Reader? {
      ReaderSwitchKeeps(s, t);
    } else {
      OtherStepKeeps(s, t);
    }
  }

  function ZonesOf(s: State): (z: seq<Zone>)
    ensures |z| == |s.pcs|
  {
    seq(|s.pcs|, i requires 0 <= i < |s.pcs| => ZoneAt(s.pcs[i]))
  }

  lemma Exclusion(s: State)
    requires Inv(s)
    ensures Exclusive(ZonesOf(s))
  {
    forall i, j | 0 <= i < |s.pcs| && 0 <= j < |s.pcs| && i != j && ZoneAt(s.pcs[i]) == Inside(WriterRole)
      ensures !ZoneAt(s.pcs[j]).Inside?
    {
      assert s.pcs[i].WriterInside?;
      CountAtLeastOne(s.pcs, i, WriterHolds);
      if s.pcs[j].WriterInside? {
        CountUnique(s.pcs, i, j, WriterHolds);
      } else if s.pcs[j] == Reader(Switch.On) {
        assert Readers(s.pcs)[j] == Switch.On;
        Switch.GrantedImpliesHeld(s.readerMutex, s.readerCount, Readers(s.pcs), j);
      }
    }
  }

  // The gate: closed exactly by the down at line 274 and opened exactly by the up at line 345.
  lemma GateMoves(s: State, t: nat)
    requires Inv(s) && t < |s.pcs| && CanGo(s, t)
    ensures !GateClosed(s) && GateClosed(Go(s, t)) <==> s.pcs[t] == Writer(Switch.Acquire)
    ensures GateClosed(s) && !GateClosed(Go(s, t)) <==> s.pcs[t] == Writer(Switch.Release)
  {
    var pc := s.pcs[t];
    Moves(s.pcs, t, Go(s, t).pcs[t]);
    if (pc.Writer? && !pc.at.On?) || pc.WriterUp? {
      Switch.StepKeeps(WriterVars(s), Writers(s.pcs), t);
    }
  }

  // With SemaphoreWriterMutex free, the gate is closed iff there are writers, and WriterCount is
  // the number of writers between lines 271 and 342.
  lemma GateOwnership(s: State)
    requires Inv(s)
    ensures s.writerCount == Count(Writers(s.pcs), Switch.Counted)
    ensures s.writerMutex == 1 ==> (GateClosed(s) <==> s.writerCount > 0)
  {
    var writers := Writers(s.pcs);
    CountMonotone(writers, Switch.Joining, Switch.HoldsMutex);
    CountMonotone(writers, Switch.Departing, Switch.HoldsMutex);
  }

  // A reader past the gate (line 308) that is not yet inside.
  predicate PastGate(pc: Pc) {
    pc.GateUp? || (pc.Reader? && Switch.MemberZone(ReaderRole, pc.at).Entering?)
  }

  // While the gate is closed nobody passes it: the readers past it but not yet inside only become
  // fewer, one for each reader that gets inside.
  lemma ClosedGateStep(s: State, t: nat)
    requires Inv(s) && GateClosed(s) && t < |s.pcs| && CanGo(s, t)
    ensures PastGate(Go(s, t).pcs[t]) ==> PastGate(s.pcs[t])
    ensures PastGate(s.pcs[t]) && !PastGate(Go(s, t).pcs[t]) <==>
            ZoneAt(s.pcs[t]) == Entering(ReaderRole) && ZoneAt(Go(s, t).pcs[t]) == Inside(ReaderRole)
  {
    if InGate(s.pcs[t]) { CountAtLeastOne(s.pcs, t, InGate); }
  }

  // Some thread in the module can always step, also when one thread holds SemaphoreWriterMutex
  // while blocked at line 274 and another holds SemaphoreReaderMutex while blocked at line 314.
  lemma Progress(s: State) returns (t: nat)
    requires Inv(s) && exists i :: 0 <= i < |s.pcs| && !s.pcs[i].Idle?
    ensures t < |s.pcs| && !s.pcs[t].Idle? && CanGo(s, t)
  {
    if Count(s.pcs, WriterHolds) > 0 {
      t := CountWitness(s.pcs, WriterHolds);
    } else if Count(s.pcs, InGate) > 0 {
      t := CountWitness(s.pcs, InGate);
    } else if s.readerMutex == 0 {
      t := Switch.HolderMoves(ReaderVars(s), Readers(s.pcs));
    } else if Switch.Held(s.readerCount, Readers(s.pcs)) {
      t := Switch.HeldHasMember(s.readerMutex, s.readerCount, Readers(s.pcs));
    } else if s.writerMutex == 0 {
      t := Switch.HolderMoves(WriterVars(s), Writers(s.pcs));
    } else if GateClosed(s) {
      t := Switch.HeldHasMember(s.writerMutex, s.writerCount, Writers(s.pcs));
    } else {
      t :| 0 <= t < |s.pcs| && !s.pcs[t].Idle?;
    }
  }

  // The points at which a thread can be blocked, and who holds what it waits for.
  predicate Blocks(pc: Pc, other: Pc) {
    match pc
    case Idle => false
    case Writer(at) =>
      if at.Down? || at.ExitDown? then Switch.HoldsMutex(WriterAt(other))                // 270, 341
      else if at.Acquire? then InGate(other)                                             // 274
      else at.On? && (WriterHolds(other) || HasRoom(ReaderAt(other)))                    // 277
    case WriterInside => false
    case WriterUp => false
    case GateDown => InGate(other) || HasRoom(WriterAt(other))                           // 308
    case GateUp => false
    case Reader(at) =>
      if at.Down? || at.ExitDown? then Switch.HoldsMutex(ReaderAt(other))                // 310, 382
      else at.Acquire? && WriterHolds(other)                                             // 314
  }

  // Its group owns the room for its sake, or it is about to give the room back.
  predicate HasRoom(at: Switch.Pc) {
    Switch.Granted(at) || Switch.Departing(at)
  }

  // Whoever is blocked is blocked by another thread, which holds what it waits for.
  lemma BlockedByOwner(s: State, t: nat) returns (i: nat)
    requires Inv(s) && t < |s.pcs| && !s.pcs[t].Idle? && !CanGo(s, t)
    ensures i < |s.pcs| && i != t && Blocks(s.pcs[t], s.pcs[i])
  {
    var pc := s.pcs[t];
    if pc.Writer? && (pc.at.Down? || pc.at.ExitDown?) {
      i := CountWitness(Writers(s.pcs), Switch.HoldsMutex);
    } else if pc.Reader? && (pc.at.Down? || pc.at.ExitDown?) {
      i := CountWitness(Readers(s.pcs), Switch.HoldsMutex);
    } else if pc.GateDown? || pc == Writer(Switch.Acquire) {
      i := GateOwner(s, t);
    } else {
      i := RoomOwner(s, t);
    }
  }

  lemma GateOwner(s: State, t: nat) returns (i: nat)
    requires Inv(s) && t < |s.pcs| && s.reader == 0 && (s.pcs[t].GateDown? || s.pcs[t] == Writer(Switch.Acquire))
    ensures i < |s.pcs| && i != t && Blocks(s.pcs[t], s.pcs[i])
  {
    assert Writers(s.pcs)[t] == WriterAt(s.pcs[t]);
    if Count(s.pcs, InGate) > 0 {
      i := CountWitness(s.pcs, InGate);
    } else {
      Switch.JoinerIsNotHeld(s.writerMutex, s.writerCount, Writers(s.pcs), t);
      i := Switch.HeldHasMember(s.writerMutex, s.writerCount, Writers(s.pcs));
    }
  }

  lemma RoomOwner(s: State, t: nat) returns (i: nat)
    requires Inv(s) && t < |s.pcs| && s.writer == 0
    requires s.pcs[t] == Writer(Switch.On) || s.pcs[t] == Reader(Switch.Acquire)
    ensures i < |s.pcs| && i != t && Blocks(s.pcs[t], s.pcs[i])
  {
    assert Readers(s.pcs)[t] == ReaderAt(s.pcs[t]);
    if Count(s.pcs, WriterHolds) > 0 {
      i := CountWitness(s.pcs, WriterHolds);
    } else {
      Switch.JoinerIsNotHeld(s.readerMutex, s.readerCount, Readers(s.pcs), t);
      i := Switch.HeldHasMember(s.readerMutex, s.readerCount, Readers(s.pcs));
    }
  }

  // Readers share: a reader on its way in among readers inside is never blocked, at the gate or after.
  lemma ReadersShare(s: State, t: nat)
    requires Inv(s) && t < |s.pcs| && AmongReaders(ZonesOf(s), t) && ZonesOf(s)[t] == Entering(ReaderRole)
    ensures CanGo(s, t)
  {
    var readers := Readers(s.pcs);
    forall i | 0 <= i < |s.pcs| && i != t
      ensures s.pcs[i].Idle? || s.pcs[i] == Reader(Switch.On)
    {
      assert ZonesOf(s)[i] == ZoneAt(s.pcs[i]);
    }
    CountNone(s.pcs, WriterHolds);
    if s.pcs[t].Reader? {
      assert s.pcs[t] == Reader(readers[t]);
      Switch.InsideDoNotHinder(ReaderVars(s), readers, t);
    } else if s.pcs[t].GateDown? {
      CountNone(s.pcs, InGate);
      Switch.EmptyAtRest(s.writerMutex, s.writerCount, Writers(s.pcs));
    }
  }

  // With everybody outside, every semaphore and counter is back at its initial value.
  lemma AtRest(s: State)
    requires Inv(s) && forall i :: 0 <= i < |s.pcs| ==> s.pcs[i].Idle?
    ensures s == Init(|s.pcs|)
  {
    Switch.EmptyAtRest(s.writerMutex, s.writerCount, Writers(s.pcs));
    Switch.EmptyAtRest(s.readerMutex, s.readerCount, Readers(s.pcs));
    CountNone(s.pcs, WriterHolds);
    CountNone(s.pcs, InGate);
  }

  lemma GoDescends(s: State, t: nat)
    requires t < |s.pcs| && CanGo(s, t)
    ensures Rank(Go(s, t).pcs[t]) < Rank(s.pcs[t])
    ensures Advances(ZoneAt(s.pcs[t]), ZoneAt(Go(s, t).pcs[t]))
  {
  }
}
