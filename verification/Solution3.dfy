// SYNC_SOLUTION 3 of lab2/KboardModule.c: all counters under one mutex, and two semaphores that
// hand out tokens to the threads that wait. The number in a comment is the line before which the
// thread stands; a counter update is a load and a store, two steps.
module Solution3 {
  import opened Counting
  import opened Zones

  // EnterCriticalSection_Writer (first line number) and EnterCriticalSection_Reader (second).
  datatype EnterPc =
    | Down                  // 280, 319: down(SemaphoreMutex)
    | Test                  // 281, 320
    | LoadWait              // 284, 322: waiting count ++
    | StoreWait(tmp: int)
    | UpWait                // 285, 323: up(SemaphoreMutex)
    | Sleep                 // 286, 324: down(SemaphoreWriter), down(SemaphoreReader)
    | Redown                // 287, 325: down(SemaphoreMutex)
    | LoadWake              // 288, 326: waiting count --
    | StoreWake(tmp: int)
    | Load                  // 290, 328: count ++
    | Store(tmp: int)
    | Up                    // 291, 329: up(SemaphoreMutex)

  // LeaveCriticalSection_Writer
  datatype LeaveWriterPc =
    | WDown                 // 352: down(SemaphoreMutex)
    | WLoad                 // 353: WriterCount--
    | WStore(tmp: int)
    | WTest                 // 354
    | Loop(index: int)      // 356: index < ReaderWaitingCount
    | Post(index: int)      // 358: up(SemaphoreReader), then index++
    | Else                  // 361
    | WWake                 // 363: up(SemaphoreWriter)
    | WUp                   // 365: up(SemaphoreMutex)

  // LeaveCriticalSection_Reader
  datatype LeaveReaderPc =
    | RDown                 // 391: down(SemaphoreMutex)
    | RLoad                 // 392: ReaderCount--
    | RStore(tmp: int)
    | RTest                 // 393
    | RWake                 // 395: up(SemaphoreWriter)
    | RUp                   // 397: up(SemaphoreMutex)

  datatype Pc =
    | Idle
    | Enter(role: Role, at: EnterPc)
    | In(role: Role)
    | LeaveWriter(w: LeaveWriterPc)
    | LeaveReader(r: LeaveReaderPc)

  datatype State = State(
    mutex: nat, writer: nat, reader: nat,
    writerCount: int, readerCount: int, writersWaiting: int, readersWaiting: int,
    pcs: seq<Pc>)

  // InitializeSyncSolution with n threads, none of them in the module.
  function Init(n: nat): State {
    State(1, 0, 0, 0, 0, 0, 0, seq(n, i => Idle))
  }

  function Arrive(s: State, t: nat, role: Role): State
    requires t < |s.pcs|
  {
    s.(pcs := s.pcs[t := Enter(role, Down)])
  }

  predicate NeedsMutex(pc: Pc) {
    (pc.Enter? && (pc.at.Down? || pc.at.Redown?)) || pc == LeaveWriter(WDown) || pc == LeaveReader(RDown)
  }

  // What `down` asks for.
  predicate Unblocked(s: State, pc: Pc) {
    && !pc.Idle?
    && (NeedsMutex(pc) ==> s.mutex > 0)
    && (pc == Enter(WriterRole, Sleep) ==> s.writer > 0)
    && (pc == Enter(ReaderRole, Sleep) ==> s.reader > 0)
  }

  predicate CanGo(s: State, t: nat)
    requires t < |s.pcs|
  {
    Unblocked(s, s.pcs[t])
  }

  function Go(s: State, t: nat): State
    requires t < |s.pcs| && CanGo(s, t)
  {
    var s' := Shared(s, s.pcs[t]);
    s'.(pcs := s.pcs[t := Successor(s, s.pcs[t])])
  }

  // The variables an entering thread of each role works with.
  function Active(s: State, role: Role): int {
    if role.WriterRole? then s.writerCount else s.readerCount
  }

  function Waiting(s: State, role: Role): int {
    if role.WriterRole? then s.writersWaiting else s.readersWaiting
  }

  function SetWaiting(s: State, role: Role, x: int): State {
    if role.WriterRole? then s.(writersWaiting := x) else s.(readersWaiting := x)
  }

  function SetActive(s: State, role: Role, x: int): State {
    if role.WriterRole? then s.(writerCount := x) else s.(readerCount := x)
  }

  // The conditions at lines 281 and 320.
  predicate MustWait(s: State, role: Role) {
    if role.WriterRole? then s.writerCount > 0 || s.readerCount > 0 || s.writersWaiting > 0 || s.readersWaiting > 0
    else s.writersWaiting > 0 || s.writerCount > 0
  }

  // What the step does to the semaphores and counters.
  function Shared(s: State, pc: Pc): State
    requires Unblocked(s, pc)
  {
    match pc
    case Enter(role, at) => SharedEnter(s, role, at)
    case In(_) => s
    case LeaveWriter(w) => SharedLeaveWriter(s, w)
    case LeaveReader(r) => SharedLeaveReader(s, r)
  }

  function SharedEnter(s: State, role: Role, at: EnterPc): State
    requires Unblocked(s, Enter(role, at))
  {
    match at
    case Down => s.(mutex := s.mutex - 1)
    case StoreWait(tmp) => SetWaiting(s, role, tmp + 1)
    case UpWait => s.(mutex := s.mutex + 1)
    case Sleep => if role.WriterRole? then s.(writer := s.writer - 1) else s.(reader := s.reader - 1)
    case Redown => s.(mutex := s.mutex - 1)
    case StoreWake(tmp) => SetWaiting(s, role, tmp - 1)
    case Store(tmp) => SetActive(s, role, tmp + 1)
    case Up => s.(mutex := s.mutex + 1)
    case _ => s
  }

  function SharedLeaveWriter(s: State, w: LeaveWriterPc): State
    requires Unblocked(s, LeaveWriter(w))
  {
    match w
    case WDown => s.(mutex := s.mutex - 1)
    case WStore(tmp) => s.(writerCount := tmp - 1)
    case Post(_) => s.(reader := s.reader + 1)
    case WWake => s.(writer := s.writer + 1)
    case WUp => s.(mutex := s.mutex + 1)
    case _ => s
  }

  function SharedLeaveReader(s: State, r: LeaveReaderPc): State
    requires Unblocked(s, LeaveReader(r))
  {
    match r
    case RDown => s.(mutex := s.mutex - 1)
    case RStore(tmp) => s.(readerCount := tmp - 1)
    case RWake => s.(writer := s.writer + 1)
    case RUp => s.(mutex := s.mutex + 1)
    case _ => s
  }

  // Where the thread stands after the step.
  function Successor(s: State, pc: Pc): Pc
    requires !pc.Idle?
  {
    match pc
    case Enter(role, at) => if at.Up? then In(role) else Enter(role, NextEnter(s, role, at))
    case In(role) => if role.WriterRole? then LeaveWriter(WDown) else LeaveReader(RDown)
    case LeaveWriter(w) => if w.WUp? then Idle else LeaveWriter(NextLeaveWriter(s, w))
    case LeaveReader(r) => if r.RUp? then Idle else LeaveReader(NextLeaveReader(s, r))
  }

  function NextEnter(s: State, role: Role, at: EnterPc): EnterPc
    requires !at.Up?
  {
    match at
    case Down => Test
    case Test => if MustWait(s, role) then LoadWait else Load
    case LoadWait => StoreWait(Waiting(s, role))
    case StoreWait(_) => UpWait
    case UpWait => Sleep
    case Sleep => Redown
    case Redown => LoadWake
    case LoadWake => StoreWake(Waiting(s, role))
    case StoreWake(_) => Load
    case Load => Store(Active(s, role))
    case Store(_) => Up
  }

  function NextLeaveWriter(s: State, w: LeaveWriterPc): LeaveWriterPc
    requires !w.WUp?
  {
    match w
    case WDown => WLoad
    case WLoad => WStore(s.writerCount)
    case WStore(_) => WTest
    case WTest => if s.readersWaiting > 0 then Loop(0) else Else
    case Loop(index) => if index < s.readersWaiting then Post(index) else WUp
    case Post(index) => Loop(index + 1)
    case Else => if s.writersWaiting > 0 then WWake else WUp
    case WWake => WUp
  }

  function NextLeaveReader(s: State, r: LeaveReaderPc): LeaveReaderPc
    requires !r.RUp?
  {
    match r
    case RDown => RLoad
    case RLoad => RStore(s.readerCount)
    case RStore(_) => RTest
    case RTest => if s.readerCount == 0 && s.writersWaiting > 0 then RWake else RUp
    case RWake => RUp
  }

  function ZoneAt(pc: Pc): Zone {
    match pc
    case Idle => Outside
    case Enter(role, _) => Entering(role)
    case In(role) => Inside(role)
    case LeaveWriter(_) => Leaving(WriterRole)
    case LeaveReader(_) => Leaving(ReaderRole)
  }

  function ZonesOf(s: State): (z: seq<Zone>)
    ensures |z| == |s.pcs|
  {
    seq(|s.pcs|, i requires 0 <= i < |s.pcs| => ZoneAt(s.pcs[i]))
  }

  // Between down(SemaphoreMutex) and up(SemaphoreMutex).
  predicate HoldsMutex(pc: Pc) {
    !(pc.Idle? || NeedsMutex(pc) || (pc.Enter? && pc.at.Sleep?) || pc.In?)
  }

  // The program points each counter stands for: past the store of its ++, before the store of its --.
  predicate CountedWriter(pc: Pc) {
    pc == Enter(WriterRole, Up) || pc == In(WriterRole) ||
    (pc.LeaveWriter? && (pc.w.WDown? || pc.w.WLoad? || pc.w.WStore?))
  }

  predicate CountedReader(pc: Pc) {
    pc == Enter(ReaderRole, Up) || pc == In(ReaderRole) ||
    (pc.LeaveReader? && (pc.r.RDown? || pc.r.RLoad? || pc.r.RStore?))
  }

  // Threads that took a token and are still counted as waiting.
  predicate Woken(pc: Pc) {
    pc.Enter? && (pc.at.Redown? || pc.at.LoadWake? || pc.at.StoreWake?)
  }

  predicate WokenWriter(pc: Pc) {
    Woken(pc) && pc.role.WriterRole?
  }

  predicate WokenReader(pc: Pc) {
    Woken(pc) && pc.role.ReaderRole?
  }

  predicate WaitingWriter(pc: Pc) {
    pc == Enter(WriterRole, UpWait) || pc == Enter(WriterRole, Sleep) || WokenWriter(pc)
  }

  predicate WaitingReader(pc: Pc) {
    pc == Enter(ReaderRole, UpWait) || pc == Enter(ReaderRole, Sleep) || WokenReader(pc)
  }

  // Tokens issued and not yet turned into an entry: in the semaphore or with a woken thread.
  function TokensW(s: State): nat {
    s.writer + Count(s.pcs, WokenWriter)
  }

  function TokensR(s: State): nat {
    s.reader + Count(s.pcs, WokenReader)
  }

  // The counters and tokens the protocol decides by.
  datatype View = View(wc: int, rc: int, ww: int, rw: int, tokW: int, tokR: int)

  function ViewOf(s: State): View {
    View(s.writerCount, s.readerCount, s.writersWaiting, s.readersWaiting, TokensW(s), TokensR(s))
  }

  // Nobody is forgotten: with no writer in or waiting, every waiting reader has a token; with
  // nobody in and writers waiting, a writer has a token or a reader does.
  predicate ReadersServed(v: View) {
    v.wc == 0 && v.ww == 0 ==> v.tokR >= v.rw
  }

  predicate Awake(v: View) {
    && ReadersServed(v)
    && (v.wc == 0 && v.rc == 0 && v.ww > 0 ==> v.tokW >= 1 || (v.tokR >= 1 && v.rw >= 1))
  }

  // What holds in the middle of a mutex section, at each point of it.
  predicate Mid(v: View, pc: Pc) {
    match pc
    case Idle => true
    case Enter(role, at) => if role.WriterRole? then MidEnterWriter(v, at) else MidEnterReader(v, at)
    case In(_) => true
    case LeaveWriter(w) => MidLeaveWriter(v, w)
    case LeaveReader(r) => MidLeaveReader(v, r)
  }

  predicate MidEnterWriter(v: View, at: EnterPc) {
    match at
    case Test => Awake(v)
    case LoadWait => Awake(v) && (v.wc > 0 || v.rc > 0 || v.ww > 0 || v.rw > 0)
    case StoreWait(tmp) => Awake(v) && tmp == v.ww && (v.wc > 0 || v.rc > 0 || v.ww > 0 || v.rw > 0)
    case UpWait => Awake(v)
    case StoreWake(tmp) => tmp == v.ww
    case Store(tmp) => tmp == v.wc
    case _ => true
  }

  predicate MidEnterReader(v: View, at: EnterPc) {
    match at
    case Test => Awake(v)
    case LoadWait => Awake(v) && (v.ww > 0 || v.wc > 0)
    case StoreWait(tmp) => Awake(v) && tmp == v.rw && (v.ww > 0 || v.wc > 0)
    case UpWait => Awake(v)
    case LoadWake => ReadersServed(v)
    case StoreWake(tmp) => ReadersServed(v) && tmp == v.rw
    case Load => ReadersServed(v)
    case Store(tmp) => ReadersServed(v) && tmp == v.rc
    case Up => ReadersServed(v)
    case _ => true
  }

  predicate MidLeaveWriter(v: View, w: LeaveWriterPc) {
    match w
    case WStore(tmp) => tmp == v.wc
    case Loop(index) => 0 <= index <= v.rw && v.rw > 0 && v.tokR >= index
    case Post(index) => 0 <= index < v.rw && v.tokR >= index
    case Else => v.rw <= 0
    case WWake => v.rw <= 0 && v.ww > 0
    case WUp => Awake(v)
    case _ => true
  }

  predicate MidLeaveReader(v: View, r: LeaveReaderPc) {
    match r
    case RDown => true
    case RStore(tmp) => ReadersServed(v) && tmp == v.rc
    case RUp => Awake(v)
    case _ => ReadersServed(v)
  }

  // The counters equal the numbers of threads at their program points, at every micro-step.
  ghost predicate Exact(s: State) {
    && s.mutex + Count(s.pcs, HoldsMutex) == 1
    && s.writerCount == Count(s.pcs, CountedWriter)
    && s.readerCount == Count(s.pcs, CountedReader)
    && s.writersWaiting == Count(s.pcs, WaitingWriter)
    && s.readersWaiting == Count(s.pcs, WaitingReader)
  }

  ghost predicate Inv(s: State) {
    && Exact(s)
    && (s.mutex == 1 ==> Awake(ViewOf(s)))
    && AllMid(ViewOf(s), s.pcs)
  }

  ghost predicate AllMid(v: View, pcs: seq<Pc>) {
    forall i :: 0 <= i < |pcs| ==> Mid(v, pcs[i])
  }

  lemma FreeMid(v: View, pc: Pc)
    requires !HoldsMutex(pc)
    ensures Mid(v, pc)
  {
  }

  lemma AllMidUpdate(v: View, v': View, pcs: seq<Pc>, t: nat, pc: Pc)
    requires AllMid(v, pcs) && t < |pcs| && Mid(v', pc)
    requires v' == v || forall i :: 0 <= i < |pcs| && i != t ==> !HoldsMutex(pcs[i])
    ensures AllMid(v', pcs[t := pc])
  {
    var pcs' := pcs[t := pc];
    forall i | 0 <= i < |pcs'|
      ensures Mid(v', pcs'[i])
    {
      if i != t && v' != v { FreeMid(v', pcs[i]); }
    }
  }

  lemma InitInv(n: nat)
    ensures Inv(Init(n)) && ViewOf(Init(n)) == View(0, 0, 0, 0, 0, 0)
  {
    var pcs := Init(n).pcs;
    CountNone(pcs, HoldsMutex);
    CountNone(pcs, CountedWriter);
    CountNone(pcs, CountedReader);
    CountNone(pcs, WaitingWriter);
    CountNone(pcs, WaitingReader);
    CountNone(pcs, WokenWriter);
    CountNone(pcs, WokenReader);
  }

  lemma CountsUpdate(pcs: seq<Pc>, t: nat, pc: Pc)
    requires t < |pcs|
    ensures Count(pcs[t := pc], HoldsMutex) + Bit(HoldsMutex(pcs[t])) == Count(pcs, HoldsMutex) + Bit(HoldsMutex(pc))
    ensures Count(pcs[t := pc], CountedWriter) + Bit(CountedWriter(pcs[t])) ==
            Count(pcs, CountedWriter) + Bit(CountedWriter(pc))
    ensures Count(pcs[t := pc], CountedReader) + Bit(CountedReader(pcs[t])) ==
            Count(pcs, CountedReader) + Bit(CountedReader(pc))
    ensures Count(pcs[t := pc], WaitingWriter) + Bit(WaitingWriter(pcs[t])) ==
            Count(pcs, WaitingWriter) + Bit(WaitingWriter(pc))
    ensures Count(pcs[t := pc], WaitingReader) + Bit(WaitingReader(pcs[t])) ==
            Count(pcs, WaitingReader) + Bit(WaitingReader(pc))
    ensures Count(pcs[t := pc], WokenWriter) + Bit(WokenWriter(pcs[t])) ==
            Count(pcs, WokenWriter) + Bit(WokenWriter(pc))
    ensures Count(pcs[t := pc], WokenReader) + Bit(WokenReader(pcs[t])) ==
            Count(pcs, WokenReader) + Bit(WokenReader(pc))
  {
    CountUpdate(pcs, t, pc, HoldsMutex);
    CountUpdate(pcs, t, pc, CountedWriter);
    CountUpdate(pcs, t, pc, CountedReader);
    CountUpdate(pcs, t, pc, WaitingWriter);
    CountUpdate(pcs, t, pc, WaitingReader);
    CountUpdate(pcs, t, pc, WokenWriter);
    CountUpdate(pcs, t, pc, WokenReader);
  }

  // The effect of one step on the view. Only stores, ups and the end of waiting change it.
  function Effect(v: View, pc: Pc): View {
    match pc
    case Idle => v
    case Enter(role, at) => if role.WriterRole? then EffectEnterWriter(v, at) else EffectEnterReader(v, at)
    case In(_) => v
    case LeaveWriter(w) => EffectLeaveWriter(v, w)
    case LeaveReader(r) => EffectLeaveReader(v, r)
  }

  function EffectEnterWriter(v: View, at: EnterPc): View {
    match at
    case StoreWait(tmp) => v.(ww := tmp + 1)
    case StoreWake(tmp) => v.(ww := tmp - 1, tokW := v.tokW - 1)
    case Store(tmp) => v.(wc := tmp + 1)
    case _ => v
  }

  function EffectEnterReader(v: View, at: EnterPc): View {
    match at
    case StoreWait(tmp) => v.(rw := tmp + 1)
    case StoreWake(tmp) => v.(rw := tmp - 1, tokR := v.tokR - 1)
    case Store(tmp) => v.(rc := tmp + 1)
    case _ => v
  }

  function EffectLeaveWriter(v: View, w: LeaveWriterPc): View {
    match w
    case WStore(tmp) => v.(wc := tmp - 1)
    case Post(_) => v.(tokR := v.tokR + 1)
    case WWake => v.(tokW := v.tokW + 1)
    case _ => v
  }

  function EffectLeaveReader(v: View, r: LeaveReaderPc): View {
    match r
    case RStore(tmp) => v.(rc := tmp - 1)
    case RWake => v.(tokW := v.tokW + 1)
    case _ => v
  }

  // Thread-local bookkeeping: how a step moves the thread between the program points that are
  // counted, and how the shared variables follow.
  lemma LocalMutex(s: State, pc: Pc)
    requires Unblocked(s, pc)
    ensures Shared(s, pc).mutex + Bit(HoldsMutex(Successor(s, pc))) == s.mutex + Bit(HoldsMutex(pc))
  {
  }

  lemma LocalCounts(s: State, pc: Pc)
    requires Unblocked(s, pc) && Registered(s, pc)
    ensures var s', pc' := Shared(s, pc), Successor(s, pc);
            && s'.writerCount - s.writerCount == Bit(CountedWriter(pc')) - Bit(CountedWriter(pc))
            && s'.readerCount - s.readerCount == Bit(CountedReader(pc')) - Bit(CountedReader(pc))
  {
  }

  lemma LocalWaiting(s: State, pc: Pc)
    requires Unblocked(s, pc) && Registered(s, pc)
    ensures var s', pc' := Shared(s, pc), Successor(s, pc);
            && s'.writersWaiting - s.writersWaiting == Bit(WaitingWriter(pc')) - Bit(WaitingWriter(pc))
            && s'.readersWaiting - s.readersWaiting == Bit(WaitingReader(pc')) - Bit(WaitingReader(pc))
  {
  }

  // The register of a ++ or -- in progress still agrees with its counter.
  predicate Registered(s: State, pc: Pc) {
    match pc
    case Idle => true
    case Enter(role, at) =>
      && (at.StoreWait? || at.StoreWake? ==> at.tmp == Waiting(s, role))
      && (at.Store? ==> at.tmp == Active(s, role))
    case In(_) => true
    case LeaveWriter(w) => w.WStore? ==> w.tmp == s.writerCount
    case LeaveReader(r) => r.RStore? ==> r.tmp == s.readerCount
  }

  lemma LocalTokens(s: State, pc: Pc)
    requires Unblocked(s, pc)
    ensures var s', pc', v := Shared(s, pc), Successor(s, pc), ViewOf(s);
            && s'.writer - s.writer + Bit(WokenWriter(pc')) - Bit(WokenWriter(pc)) == Effect(v, pc).tokW - v.tokW
            && s'.reader - s.reader + Bit(WokenReader(pc')) - Bit(WokenReader(pc)) == Effect(v, pc).tokR - v.tokR
  {
  }

  lemma LocalCounters(s: State, pc: Pc)
    requires Unblocked(s, pc)
    ensures var s', v := Shared(s, pc), Effect(ViewOf(s), pc);
            s'.writerCount == v.wc && s'.readerCount == v.rc && s'.writersWaiting == v.ww && s'.readersWaiting == v.rw
  {
  }

  lemma ViewStep(s: State, t: nat)
    requires t < |s.pcs| && CanGo(s, t)
    ensures ViewOf(Go(s, t)) == Effect(ViewOf(s), s.pcs[t])
  {
    LocalTokens(s, s.pcs[t]);
    LocalCounters(s, s.pcs[t]);
    CountUpdate(s.pcs, t, Successor(s, s.pcs[t]), WokenWriter);
    CountUpdate(s.pcs, t, Successor(s, s.pcs[t]), WokenReader);
  }

  // The mutex has at most one holder.
  lemma OnlyHolder(s: State, t: nat)
    requires Exact(s) && t < |s.pcs| && HoldsMutex(s.pcs[t])
    ensures s.mutex == 0
    ensures forall i :: 0 <= i < |s.pcs| && i != t ==> !HoldsMutex(s.pcs[i])
  {
    CountAtLeastOne(s.pcs, t, HoldsMutex);
    forall i | 0 <= i < |s.pcs| && i != t
      ensures !HoldsMutex(s.pcs[i])
    {
      if HoldsMutex(s.pcs[i]) { CountUnique(s.pcs, i, t, HoldsMutex); }
    }
  }

  lemma ExactStep(s: State, t: nat)
    requires Exact(s) && t < |s.pcs| && CanGo(s, t) && Registered(s, s.pcs[t])
    ensures Exact(Go(s, t))
  {
    var pc := s.pcs[t];
    LocalMutex(s, pc);
    LocalCounts(s, pc);
    LocalWaiting(s, pc);
    CountsUpdate(s.pcs, t, Successor(s, pc));
  }

  // One thread's next point, from the facts at its present one; a thread that takes the mutex
  // starts from Awake, and a thread that gives it back leaves Awake behind.
  lemma LocalMid(s: State, pc: Pc)
    requires Unblocked(s, pc) && Mid(ViewOf(s), pc)
    requires NeedsMutex(pc) ==> Awake(ViewOf(s))
    requires s.writerCount >= 0 && s.writersWaiting >= 0
    ensures Mid(Effect(ViewOf(s), pc), Successor(s, pc))
    ensures Registered(s, pc)
  {
  }

  lemma LocalRelease(s: State, pc: Pc)
    requires Unblocked(s, pc) && Mid(ViewOf(s), pc)
    requires (pc == Enter(WriterRole, Up) ==> s.writerCount > 0) && (pc == Enter(ReaderRole, Up) ==> s.readerCount > 0)
    requires !HoldsMutex(Successor(s, pc))
    requires HoldsMutex(pc) || Awake(ViewOf(s))
    ensures Awake(Effect(ViewOf(s), pc))
  {
  }

  // Only the holder of the mutex changes the view.
  lemma FreeEffect(v: View, pc: Pc)
    requires !HoldsMutex(pc)
    ensures Effect(v, pc) == v
  {
  }

  lemma ReleaseStep(s: State, t: nat)
    requires Inv(s) && t < |s.pcs| && CanGo(s, t) && Exact(Go(s, t)) && Go(s, t).mutex == 1
    ensures Awake(Effect(ViewOf(s), s.pcs[t]))
  {
    var s', pc := Go(s, t), s.pcs[t];
    if HoldsMutex(s'.pcs[t]) { OnlyHolder(s', t); }
    if CountedWriter(pc) { CountAtLeastOne(s.pcs, t, CountedWriter); }
    if CountedReader(pc) { CountAtLeastOne(s.pcs, t, CountedReader); }
    LocalMutex(s, pc);
    LocalRelease(s, pc);
  }

  lemma GoKeeps(s: State, t: nat)
    requires Inv(s) && t < |s.pcs| && CanGo(s, t)
    ensures Inv(Go(s, t))
  {
    var s', pc := Go(s, t), s.pcs[t];
    LocalMid(s, pc);
    ViewStep(s, t);
    ExactStep(s, t);
    if s'.mutex == 1 { ReleaseStep(s, t); }
    if HoldsMutex(pc) { OnlyHolder(s, t); } else { FreeEffect(ViewOf(s), pc); }
    AllMidUpdate(ViewOf(s), ViewOf(s'), s.pcs, t, s'.pcs[t]);
  }

  lemma ArriveKeeps(s: State, t: nat, role: Role)
    requires Inv(s) && t < |s.pcs| && s.pcs[t].Idle?
    ensures Inv(Arrive(s, t, role)) && ViewOf(Arrive(s, t, role)) == ViewOf(s)
  {
    var s', pc := Arrive(s, t, role), Arrive(s, t, role).pcs[t];
    CountsUpdate(s.pcs, t, pc);
    AllMidUpdate(ViewOf(s), ViewOf(s'), s.pcs, t, pc);
  }

  // No deadlock, whether or not exclusion holds.
  lemma Progress(s: State) returns (t: nat)
    requires Inv(s) && exists i :: 0 <= i < |s.pcs| && !s.pcs[i].Idle?
    ensures t < |s.pcs| && !s.pcs[t].Idle? && CanGo(s, t)
  {
    if s.mutex == 0 {
      t := CountWitness(s.pcs, HoldsMutex);
    } else if Count(s.pcs, CountedWriter) > 0 {
      t := CountWitness(s.pcs, CountedWriter);
    } else if Count(s.pcs, CountedReader) > 0 {
      t := CountWitness(s.pcs, CountedReader);
    } else if Count(s.pcs, WokenWriter) > 0 {
      t := CountWitness(s.pcs, WokenWriter);
    } else if Count(s.pcs, WokenReader) > 0 {
      t := CountWitness(s.pcs, WokenReader);
    } else {
      t := Sleeper(s);
    }
  }

  // Nobody holds the mutex, is counted in or has been woken: then a sleeper finds a token.
  lemma Sleeper(s: State) returns (t: nat)
    requires Inv(s) && s.mutex == 1 && exists i :: 0 <= i < |s.pcs| && !s.pcs[i].Idle?
    requires s.writerCount == 0 && s.readerCount == 0
    requires Count(s.pcs, WokenWriter) == 0 && Count(s.pcs, WokenReader) == 0
    ensures t < |s.pcs| && !s.pcs[t].Idle? && CanGo(s, t)
  {
    t :| 0 <= t < |s.pcs| && !s.pcs[t].Idle?;
    var pc := s.pcs[t];
    if HoldsMutex(pc) { CountAtLeastOne(s.pcs, t, HoldsMutex); }
    if !CanGo(s, t) {
      if pc == Enter(WriterRole, Sleep) {
        CountAtLeastOne(s.pcs, t, WaitingWriter);
        if s.writer == 0 {
          t := CountWitness(s.pcs, WaitingReader);
          if WokenReader(s.pcs[t]) { CountAtLeastOne(s.pcs, t, WokenReader); }
          if HoldsMutex(s.pcs[t]) { CountAtLeastOne(s.pcs, t, HoldsMutex); }
        }
      } else {
        CountAtLeastOne(s.pcs, t, WaitingReader);
        t := CountWitness(s.pcs, WaitingWriter);
        if WokenWriter(s.pcs[t]) { CountAtLeastOne(s.pcs, t, WokenWriter); }
        if HoldsMutex(s.pcs[t]) { CountAtLeastOne(s.pcs, t, HoldsMutex); }
      }
    }
  }

  function Rank(n: nat, pc: Pc): nat {
    match pc
    case Idle => 0
    case Enter(_, at) => 2 * n + 8 + EnterRank(at)
    case In(_) => 2 * n + 7
    case LeaveWriter(w) => LeaveWriterRank(n, w)
    case LeaveReader(r) => LeaveReaderRank(r)
  }

  function Ranks(n: nat): Pc -> nat {
    pc => Rank(n, pc)
  }

  function EnterRank(at: EnterPc): nat {
    match at
    case Down => 11
    case Test => 10
    case LoadWait => 9
    case StoreWait(_) => 8
    case UpWait => 7
    case Sleep => 6
    case Redown => 5
    case LoadWake => 4
    case StoreWake(_) => 3
    case Load => 2
    case Store(_) => 1
    case Up => 0
  }

  function LeaveWriterRank(n: nat, w: LeaveWriterPc): nat {
    match w
    case WDown => 2 * n + 6
    case WLoad => 2 * n + 5
    case WStore(_) => 2 * n + 4
    case WTest => 2 * n + 3
    case Loop(index) => if 0 <= index <= n then 2 * (n - index) + 2 else 0
    case Post(index) => if 0 <= index < n then 2 * (n - index) + 1 else 0
    case Else => 3
    case WWake => 2
    case WUp => 1
  }

  function LeaveReaderRank(r: LeaveReaderPc): nat {
    match r
    case RDown => 6
    case RLoad => 5
    case RStore(_) => 4
    case RTest => 3
    case RWake => 2
    case RUp => 1
  }

  lemma LocalRank(s: State, pc: Pc, n: nat)
    requires Unblocked(s, pc) && 1 <= n && s.readersWaiting <= n
    requires pc.LeaveWriter? && (pc.w.Loop? || pc.w.Post?) ==> 0 <= pc.w.index <= s.readersWaiting
    requires pc.LeaveWriter? && pc.w.Post? ==> pc.w.index < s.readersWaiting
    ensures Rank(n, Successor(s, pc)) < Rank(n, pc)
  {
  }

  lemma LocalZone(s: State, pc: Pc)
    requires Unblocked(s, pc)
    ensures Advances(ZoneAt(pc), ZoneAt(Successor(s, pc)))
  {
  }

  // Every step of a thread uses up one of its remaining steps; the wake-up loop is bounded by the
  // readers that wait.
  lemma GoDescends(s: State, t: nat)
    requires Inv(s) && t < |s.pcs| && CanGo(s, t)
    ensures Rank(|s.pcs|, Go(s, t).pcs[t]) < Rank(|s.pcs|, s.pcs[t])
    ensures Advances(ZoneAt(s.pcs[t]), ZoneAt(Go(s, t).pcs[t]))
  {
    CountBounded(s.pcs, WaitingReader);
    assert Mid(ViewOf(s), s.pcs[t]);
    LocalRank(s, s.pcs[t], |s.pcs|);
    LocalZone(s, s.pcs[t]);
  }

  // The wake-up loop issues exactly ReaderWaitingCount tokens. While a thread is in it, nobody else
  // changes the number of waiting readers or the tokens outstanding for them; each of its own
  // rounds adds one token and one to the index; and it ends when the index is that number.
  lemma LoopIssuesAll(s: State, t: nat, i: nat)
    requires Inv(s) && t < |s.pcs| && s.pcs[t].LeaveWriter? && (s.pcs[t].w.Loop? || s.pcs[t].w.Post?)
    requires i < |s.pcs| && CanGo(s, i)
    ensures Go(s, i).readersWaiting == s.readersWaiting == Count(s.pcs, WaitingReader) > 0
    ensures TokensR(Go(s, i)) == TokensR(s) + Bit(i == t && s.pcs[t].w.Post?)
    ensures i != t ==> Go(s, i).pcs[t] == s.pcs[t]
    ensures i == t && s.pcs[t].w.Post? ==> Go(s, t).pcs[t] == LeaveWriter(Loop(s.pcs[t].w.index + 1))
    ensures i == t && s.pcs[t].w.Loop? ==>
              (Go(s, t).pcs[t] == LeaveWriter(WUp) <==> s.pcs[t].w.index == s.readersWaiting)
  {
    OnlyHolder(s, t);
    ViewStep(s, i);
    assert Mid(ViewOf(s), s.pcs[t]);
    if i != t { FreeEffect(ViewOf(s), s.pcs[i]); }
  }

  // Whoever is blocked is blocked for a reason another thread gives: it holds the mutex; or, the mutex
  // being free, a sleeping reader has a writer in or waiting, or a woken reader in front of it, and a
  // sleeping writer has somebody in, or a woken thread in front of it, or a reader with a token to use.
  lemma BlockedByOther(s: State, t: nat) returns (i: nat)
    requires Inv(s) && t < |s.pcs| && !s.pcs[t].Idle? && !CanGo(s, t)
    ensures i < |s.pcs| && i != t
    ensures s.mutex == 0 ==> HoldsMutex(s.pcs[i])
    ensures s.mutex == 1 ==> s.pcs[t] == Enter(ReaderRole, Sleep) || s.pcs[t] == Enter(WriterRole, Sleep)
    ensures s.mutex == 1 && s.pcs[t] == Enter(ReaderRole, Sleep) ==>
              s.reader == 0 && (CountedWriter(s.pcs[i]) || WaitingWriter(s.pcs[i]) || WokenReader(s.pcs[i]))
    ensures s.mutex == 1 && s.pcs[t] == Enter(WriterRole, Sleep) ==>
              s.writer == 0 && (CountedWriter(s.pcs[i]) || CountedReader(s.pcs[i]) || WokenWriter(s.pcs[i]) ||
                                (WaitingReader(s.pcs[i]) && TokensR(s) > 0))
  {
    if s.mutex == 0 {
      i := CountWitness(s.pcs, HoldsMutex);
    } else if s.pcs[t] == Enter(ReaderRole, Sleep) {
      i := SleepingReaderHasReason(s, t);
    } else {
      i := SleepingWriterHasReason(s, t);
    }
  }

  lemma SleepingReaderHasReason(s: State, t: nat) returns (i: nat)
    requires Inv(s) && s.mutex == 1 && s.reader == 0 && t < |s.pcs| && s.pcs[t] == Enter(ReaderRole, Sleep)
    ensures i < |s.pcs| && i != t
    ensures CountedWriter(s.pcs[i]) || WaitingWriter(s.pcs[i]) || WokenReader(s.pcs[i])
  {
    CountAtLeastOne(s.pcs, t, WaitingReader);
    if s.writerCount > 0 {
      i := CountWitness(s.pcs, CountedWriter);
    } else if s.writersWaiting > 0 {
      i := CountWitness(s.pcs, WaitingWriter);
    } else {
      i := CountWitness(s.pcs, WokenReader);
    }
  }

  lemma SleepingWriterHasReason(s: State, t: nat) returns (i: nat)
    requires Inv(s) && s.mutex == 1 && s.writer == 0 && t < |s.pcs| && s.pcs[t] == Enter(WriterRole, Sleep)
    ensures i < |s.pcs| && i != t
    ensures CountedWriter(s.pcs[i]) || CountedReader(s.pcs[i]) || WokenWriter(s.pcs[i]) ||
            (WaitingReader(s.pcs[i]) && TokensR(s) > 0)
  {
    CountAtLeastOne(s.pcs, t, WaitingWriter);
    if s.writerCount > 0 {
      i := CountWitness(s.pcs, CountedWriter);
    } else if s.readerCount > 0 {
      i := CountWitness(s.pcs, CountedReader);
    } else if Count(s.pcs, WokenWriter) > 0 {
      i := CountWitness(s.pcs, WokenWriter);
    } else {
      i := CountWitness(s.pcs, WaitingReader);
    }
  }

  // ---- Who can overtake a waiting writer ----

  // A reader at lines 328-329, on its last steps before it is inside.
  predicate LetIn(pc: Pc) {
    pc.Enter? && pc.role.ReaderRole? && (pc.at.Load? || pc.at.Store? || pc.at.Up?)
  }

  // The readers that can get in before a writer does: those at 328-329 and those with a token.
  function Overtakers(s: State): nat {
    Count(s.pcs, LetIn) + TokensR(s)
  }

  // As long as a writer waits and nobody executes line 358 nobody is added to them, and one leaves them
  // exactly by getting inside.
  lemma OvertakersStep(s: State, t: nat)
    requires t < |s.pcs| && CanGo(s, t) && s.writersWaiting > 0
    requires !(s.pcs[t].LeaveWriter? && s.pcs[t].w.Post?)
    ensures Overtakers(Go(s, t)) +
            Bit(ZoneAt(s.pcs[t]) == Entering(ReaderRole) && ZoneAt(Go(s, t).pcs[t]) == Inside(ReaderRole)) ==
            Overtakers(s)
  {
    ViewStep(s, t);
    CountUpdate(s.pcs, t, Go(s, t).pcs[t], LetIn);
  }

  lemma OvertakersArrive(s: State, t: nat, role: Role)
    requires t < |s.pcs| && s.pcs[t].Idle?
    ensures Overtakers(Arrive(s, t, role)) == Overtakers(s)
  {
    CountUpdate(s.pcs, t, Enter(role, Down), LetIn);
    CountUpdate(s.pcs, t, Enter(role, Down), WokenReader);
  }

  // Readers share: a reader on its way in among readers inside is never blocked, and if it has been
  // put to sleep there is a token for it.
  lemma ReadersShare(s: State, t: nat)
    requires Inv(s) && t < |s.pcs| && AmongReaders(ZonesOf(s), t) && ZonesOf(s)[t] == Entering(ReaderRole)
    ensures CanGo(s, t)
  {
    forall i | 0 <= i < |s.pcs| && i != t
      ensures s.pcs[i].Idle? || s.pcs[i] == In(ReaderRole)
    {
      assert ZonesOf(s)[i] == ZoneAt(s.pcs[i]);
    }
    if !HoldsMutex(s.pcs[t]) { CountNone(s.pcs, HoldsMutex); }
    if s.pcs[t] == Enter(ReaderRole, Sleep) {
      CountNone(s.pcs, CountedWriter);
      CountNone(s.pcs, WaitingWriter);
      CountNone(s.pcs, WokenReader);
      CountAtLeastOne(s.pcs, t, WaitingReader);
    }
  }

  // Nobody in the module, the mutex free and every counter 0; tokens may be left.
  predicate Resting(s: State) {
    s == Init(|s.pcs|).(writer := s.writer, reader := s.reader)
  }

  // With everybody outside, the mutex and every counter are back at their initial values.
  lemma AtRest(s: State)
    requires Inv(s) && forall i :: 0 <= i < |s.pcs| ==> s.pcs[i].Idle?
    ensures Resting(s)
  {
    CountNone(s.pcs, HoldsMutex);
    CountNone(s.pcs, CountedWriter);
    CountNone(s.pcs, CountedReader);
    CountNone(s.pcs, WaitingWriter);
    CountNone(s.pcs, WaitingReader);
  }
}
