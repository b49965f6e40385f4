// The counted entry and exit that lab2/KboardModule.c spells out three times: the first member of a
// group to arrive takes a semaphore (the "room") on behalf of the whole group and the last one to
// leave gives it back, under a mutex that guards the group's counter.
//   Solution 1, readers: mutex SemaphoreMutex,       counter ReaderCount, room SemaphoreWriter (lines 299-305, 373-379)
//   Solution 2, writers: mutex SemaphoreWriterMutex, counter WriterCount, room SemaphoreReader (lines 270-276, 341-347)
//   Solution 2, readers: mutex SemaphoreReaderMutex, counter ReaderCount, room SemaphoreWriter (lines 310-316, 382-388)
// Every down, up, test, load and store is a step of its own: `count++` loads into a register and stores later.
module Switch {
  import opened Counting
  import opened Zones

  datatype Pc =
    | Out                 // not a member of this group
    | Down                // before down(mutex)
    | Load                // count++: before the load
    | Store(tmp: int)     // count++: before the store
    | Test                // before `if (count == 1)`
    | Acquire             // before down(room)
    | UpMutex             // before up(mutex)
    | On                  // past the entry section
    | ExitDown            // before down(mutex) of the exit section
    | ExitLoad            // count--: before the load
    | ExitStore(tmp: int) // count--: before the store
    | ExitTest            // before `if (count == 0)`
    | Release             // before up(room)
    | ExitUp              // before the last up(mutex)

  datatype Vars = Vars(mutex: nat, count: int, room: nat)

  predicate CanStep(v: Vars, pc: Pc) {
    match pc
    case Out => false
    case Down => v.mutex > 0
    case ExitDown => v.mutex > 0
    case Acquire => v.room > 0
    case _ => true
  }

  function Step(v: Vars, pc: Pc): (r: (Vars, Pc))
    requires CanStep(v, pc)
  {
    match pc
    case Down => (v.(mutex := v.mutex - 1), Load)
    case Load => (v, Store(v.count))
    case Store(tmp) => (v.(count := tmp + 1), Test)
    case Test => (v, if v.count == 1 then Acquire else UpMutex)
    case Acquire => (v.(room := v.room - 1), UpMutex)
    case UpMutex => (v.(mutex := v.mutex + 1), On)
    case On => (v, ExitDown)
    case ExitDown => (v.(mutex := v.mutex - 1), ExitLoad)
    case ExitLoad => (v, ExitStore(v.count))
    case ExitStore(tmp) => (v.(count := tmp - 1), ExitTest)
    case ExitTest => (v, if v.count == 0 then Release else ExitUp)
    case Release => (v.(room := v.room + 1), ExitUp)
    case ExitUp => (v.(mutex := v.mutex + 1), Out)
  }

  function MemberZone(role: Role, pc: Pc): Zone {
    match pc
    case Out => Outside
    case Down => Entering(role)
    case Load => Entering(role)
    case Store(_) => Entering(role)
    case Test => Entering(role)
    case Acquire => Entering(role)
    case UpMutex => Entering(role)
    case On => Inside(role)
    case ExitDown => Leaving(role)
    case ExitLoad => Leaving(role)
    case ExitStore(_) => Leaving(role)
    case ExitTest => Leaving(role)
    case Release => Leaving(role)
    case ExitUp => Leaving(role)
  }

  // The steps a thread still has to take, not counting the work it does while On.
  function Rank(pc: Pc): nat {
    match pc
    case Out => 0
    case Down => 13
    case Load => 12
    case Store(_) => 11
    case Test => 10
    case Acquire => 9
    case UpMutex => 8
    case On => 7
    case ExitDown => 6
    case ExitLoad => 5
    case ExitStore(_) => 4
    case ExitTest => 3
    case Release => 2
    case ExitUp => 1
  }

  // Between down(mutex) and up(mutex).
  predicate HoldsMutex(pc: Pc) {
    pc.Load? || pc.Store? || pc.Test? || pc.Acquire? || pc.UpMutex? ||
    pc.ExitLoad? || pc.ExitStore? || pc.ExitTest? || pc.Release? || pc.ExitUp?
  }

  // Past the store of count++ and before the store of count--.
  predicate Counted(pc: Pc) {
    pc.Test? || pc.Acquire? || pc.UpMutex? || pc.On? || pc.ExitDown? || pc.ExitLoad? || pc.ExitStore?
  }

  // The counter already includes the thread, the room may not have been taken yet.
  predicate Joining(pc: Pc) {
    pc.Test? || pc.Acquire?
  }

  // The counter no longer includes the thread, the room may not have been given back yet.
  predicate Departing(pc: Pc) {
    pc.ExitTest? || pc.Release?
  }

  // A member for whom the group already holds the room.
  predicate Granted(pc: Pc) {
    pc.UpMutex? || pc.On? || pc.ExitDown? || pc.ExitLoad? || pc.ExitStore?
  }

  // What a member's register and branch say about the counter.
  predicate Consistent(pc: Pc, count: int) {
    && (pc.Store? ==> pc.tmp == count)
    && (pc.ExitStore? ==> pc.tmp == count)
    && (pc.Acquire? ==> count == 1)
    && (pc.Release? ==> count == 0)
  }

  ghost predicate Inv(mutex: nat, count: int, pcs: seq<Pc>) {
    && mutex + Count(pcs, HoldsMutex) == 1
    && count == Count(pcs, Counted)
    && forall i :: 0 <= i < |pcs| ==> Consistent(pcs[i], count)
  }

  // Does the group as a whole hold the room? While somebody is joining or departing the counter and
  // the room semaphore disagree for a few steps; this says which way.
  function Held(count: int, pcs: seq<Pc>): bool {
    count > Count(pcs, Joining) || (count == 0 && Count(pcs, Departing) > 0)
  }

  lemma CountsUpdate(pcs: seq<Pc>, t: nat, pc: Pc)
    requires t < |pcs|
    ensures Count(pcs[t := pc], HoldsMutex) + Bit(HoldsMutex(pcs[t])) == Count(pcs, HoldsMutex) + Bit(HoldsMutex(pc))
    ensures Count(pcs[t := pc], Counted) + Bit(Counted(pcs[t])) == Count(pcs, Counted) + Bit(Counted(pc))
    ensures Count(pcs[t := pc], Joining) + Bit(Joining(pcs[t])) == Count(pcs, Joining) + Bit(Joining(pc))
    ensures Count(pcs[t := pc], Departing) + Bit(Departing(pcs[t])) == Count(pcs, Departing) + Bit(Departing(pc))
  {
    CountUpdate(pcs, t, pc, HoldsMutex);
    CountUpdate(pcs, t, pc, Counted);
    CountUpdate(pcs, t, pc, Joining);
    CountUpdate(pcs, t, pc, Departing);
  }

  // One step of one member keeps the group's invariant, and whatever it takes from or adds to the
  // room semaphore is exactly what the group gains or gives up.
  lemma StepKeeps(v: Vars, pcs: seq<Pc>, t: nat)
    requires Inv(v.mutex, v.count, pcs)
    requires t < |pcs| && CanStep(v, pcs[t])
    ensures var (v', pc') := Step(v, pcs[t]);
            && Inv(v'.mutex, v'.count, pcs[t := pc'])
            && v'.room + Bit(Held(v'.count, pcs[t := pc'])) == v.room + Bit(Held(v.count, pcs))
  {
    var pc := pcs[t];
    var (v', pc') := Step(v, pc);
    var pcs' := pcs[t := pc'];
    CountsUpdate(pcs, t, pc');
    if HoldsMutex(pc) {
      OnlyHolder(v.mutex, v.count, pcs, t);
      CountMonotone(pcs, Joining, HoldsMutex);
      CountMonotone(pcs, Departing, HoldsMutex);
      if !Joining(pc) { CountNone(pcs, Joining); }
      if !Departing(pc) { CountNone(pcs, Departing); }
    }
    if Counted(pc) { CountAtLeastOne(pcs, t, Counted); }
    if Joining(pc) { CountAtLeastOne(pcs, t, Joining); }
    if Departing(pc) { CountAtLeastOne(pcs, t, Departing); }
    if Joining(pc') { CountAtLeastOne(pcs', t, Joining); }
    if Departing(pc') { CountAtLeastOne(pcs', t, Departing); }
  }

  // Only the holder of the mutex stands between its down and its up.
  lemma OnlyHolder(mutex: nat, count: int, pcs: seq<Pc>, t: nat)
    requires Inv(mutex, count, pcs)
    requires t < |pcs| && HoldsMutex(pcs[t])
    ensures mutex == 0
    ensures forall i :: 0 <= i < |pcs| && i != t ==> !HoldsMutex(pcs[i])
  {
    CountAtLeastOne(pcs, t, HoldsMutex);
    forall i | 0 <= i < |pcs| && i != t
      ensures !HoldsMutex(pcs[i])
    {
      if HoldsMutex(pcs[i]) {
        CountUnique(pcs, i, t, HoldsMutex);
      }
    }
  }

  // Arriving at the entry section changes nothing that is shared.
  lemma ArriveKeeps(mutex: nat, count: int, pcs: seq<Pc>, t: nat)
    requires Inv(mutex, count, pcs)
    requires t < |pcs| && pcs[t].Out?
    ensures Inv(mutex, count, pcs[t := Down])
    ensures Held(count, pcs[t := Down]) == Held(count, pcs)
  {
    CountsUpdate(pcs, t, Down);
  }

  // A taken mutex has a holder, and the holder can step unless it waits for the room;
  // then the group does not hold the room.
  lemma HolderMoves(v: Vars, pcs: seq<Pc>) returns (t: nat)
    requires Inv(v.mutex, v.count, pcs) && v.mutex == 0
    ensures t < |pcs| && HoldsMutex(pcs[t])
    ensures CanStep(v, pcs[t]) || (pcs[t].Acquire? && !Held(v.count, pcs))
  {
    t := CountWitness(pcs, HoldsMutex);
    if pcs[t].Acquire? {
      CountAtLeastOne(pcs, t, Joining);
    }
  }

  // A member inside implies that the group holds the room.
  lemma GrantedImpliesHeld(mutex: nat, count: int, pcs: seq<Pc>, t: nat)
    requires Inv(mutex, count, pcs)
    requires t < |pcs| && Granted(pcs[t])
    ensures Held(count, pcs)
  {
    CountSplit(pcs, Counted, Granted, Joining);
    CountAtLeastOne(pcs, t, Granted);
  }

  // While a member waits for the room its group does not own it.
  lemma JoinerIsNotHeld(mutex: nat, count: int, pcs: seq<Pc>, t: nat)
    requires Inv(mutex, count, pcs) && t < |pcs|
    ensures pcs[t].Acquire? ==> !Held(count, pcs)
  {
    if pcs[t].Acquire? { CountAtLeastOne(pcs, t, Joining); }
  }

  // Members that are all inside, or not there at all, do not hinder one that enters: it finds the
  // mutex free, and if it is the first it finds that its group does not own the room yet.
  lemma InsideDoNotHinder(v: Vars, pcs: seq<Pc>, t: nat)
    requires Inv(v.mutex, v.count, pcs) && t < |pcs| && !pcs[t].Out? && !pcs[t].ExitDown?
    requires forall i :: 0 <= i < |pcs| && i != t ==> pcs[i].Out? || pcs[i].On?
    ensures pcs[t].Down? ==> v.mutex == 1
    ensures pcs[t].Acquire? ==> !Held(v.count, pcs)
  {
    if pcs[t].Down? { CountNone(pcs, HoldsMutex); }
    if pcs[t].Acquire? { CountAtLeastOne(pcs, t, Joining); }
  }

  // A group that holds the room has a member who is granted it, or one who is about to return it.
  lemma HeldHasMember(mutex: nat, count: int, pcs: seq<Pc>) returns (t: nat)
    requires Inv(mutex, count, pcs) && Held(count, pcs)
    ensures t < |pcs| && (Granted(pcs[t]) || Departing(pcs[t]))
  {
    if count > Count(pcs, Joining) {
      CountSplit(pcs, Counted, Granted, Joining);
      t := CountWitness(pcs, Granted);
    } else {
      t := CountWitness(pcs, Departing);
    }
  }

  // Nobody in the group: the counter is back at 0, the mutex is free and the room is not held.
  lemma EmptyAtRest(mutex: nat, count: int, pcs: seq<Pc>)
    requires Inv(mutex, count, pcs)
    requires forall i :: 0 <= i < |pcs| ==> pcs[i].Out?
    ensures mutex == 1 && count == 0 && !Held(count, pcs)
  {
    CountNone(pcs, HoldsMutex);
    CountNone(pcs, Counted);
    CountNone(pcs, Departing);
  }

  lemma InitInv(pcs: seq<Pc>)
    requires forall i :: 0 <= i < |pcs| ==> pcs[i].Out?
    ensures Inv(1, 0, pcs) && !Held(0, pcs)
  {
    CountNone(pcs, HoldsMutex);
    CountNone(pcs, Counted);
    CountNone(pcs, Departing);
  }
}
