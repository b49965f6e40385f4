// The three protocols on their own variables: each class has the static variables of one
// SYNC_SOLUTION, and its methods take one step of one thread in place.
module Protocols {
  import opened Counting
  import opened Zones
  import Switch
  import Solution1
  import Solution2
  import Solution3

  class Protocol1 {
    var SemaphoreMutex: nat
    var SemaphoreWriter: nat
    var ReaderCount: int
    const At: array<Solution1.Pc> // where each thread stands

    function Value(): Solution1.State
      reads this, At
    {
      Solution1.State(SemaphoreMutex, SemaphoreWriter, ReaderCount, At[..])
    }

    // InitializeSyncSolution, lines 237-239.
    constructor (threads: nat)
      ensures fresh(At) && Value() == Solution1.Init(threads)
    {
      SemaphoreMutex, SemaphoreWriter, ReaderCount := 1, 1, 0;
      At := new Solution1.Pc[threads](_ => Solution1.Idle);
      new;
      assert At[..] == Solution1.Init(threads).pcs;
    }

    // Lines 267-305, 337 and 373-379.
    method Go(t: nat)
      requires t < At.Length && Solution1.CanGo(Value(), t)
      modifies this, At
      ensures Value() == Solution1.Go(old(Value()), t)
    {
      match At[t]
      case WriterDown =>
        SemaphoreWriter := SemaphoreWriter - 1;
        At[t] := Solution1.WriterInside;
      case WriterInside =>
        At[t] := Solution1.WriterUp;
      case WriterUp =>
        SemaphoreWriter := SemaphoreWriter + 1;
        At[t] := Solution1.Idle;
      case Reader(at) =>
        match at {
          case Down =>
            SemaphoreMutex := SemaphoreMutex - 1;
            At[t] := Solution1.Reader(Switch.Load);
          case Load =>
            At[t] := Solution1.Reader(Switch.Store(ReaderCount));
          case Store(tmp) =>
            ReaderCount := tmp + 1;
            At[t] := Solution1.Reader(Switch.Test);
          case Test =>
            At[t] := Solution1.Reader(if ReaderCount == 1 then Switch.Acquire else Switch.UpMutex);
          case Acquire =>
            SemaphoreWriter := SemaphoreWriter - 1;
            At[t] := Solution1.Reader(Switch.UpMutex);
          case UpMutex =>
            SemaphoreMutex := SemaphoreMutex + 1;
            At[t] := Solution1.Reader(Switch.On);
          case On =>
            At[t] := Solution1.Reader(Switch.ExitDown);
          case ExitDown =>
            SemaphoreMutex := SemaphoreMutex - 1;
            At[t] := Solution1.Reader(Switch.ExitLoad);
          case ExitLoad =>
            At[t] := Solution1.Reader(Switch.ExitStore(ReaderCount));
          case ExitStore(tmp) =>
            ReaderCount := tmp - 1;
            At[t] := Solution1.Reader(Switch.ExitTest);
          case ExitTest =>
            At[t] := Solution1.Reader(if ReaderCount == 0 then Switch.Release else Switch.ExitUp);
          case Release =>
            SemaphoreWriter := SemaphoreWriter + 1;
            At[t] := Solution1.Reader(Switch.ExitUp);
          case ExitUp =>
            SemaphoreMutex := SemaphoreMutex + 1;
            At[t] := Solution1.Idle;
        }
    }

    // With no new arrivals, any order of steps lets everybody out and leaves all as it began.
    method LetOut()
      requires Solution1.Inv(Value())
      modifies this, At
      ensures Value() == Solution1.Init(At.Length)
    {
      while exists i :: 0 <= i < At.Length && !At[i].Idle?
        invariant Solution1.Inv(Value())
        decreases Sum(At[..], Solution1.Rank)
      {
        ghost var enabled := Solution1.Progress(Value());
        var t: nat :| t < At.Length && Solution1.CanGo(Value(), t);
        Solution1.GoKeeps(Value(), t);
        Solution1.GoDescends(Value(), t);
        SumUpdate(At[..], t, Solution1.Go(Value(), t).pcs[t], Solution1.Rank);
        Go(t);
      }
      Solution1.AtRest(Value());
    }
  }

  class Protocol2 {
    var SemaphoreWriterMutex: nat
    var SemaphoreReaderMutex: nat
    var SemaphoreWriter: nat
    var SemaphoreReader: nat
    var WriterCount: int
    var ReaderCount: int
    const At: array<Solution2.Pc>

    function Value(): Solution2.State
      reads this, At
    {
      Solution2.State(SemaphoreWriterMutex, SemaphoreReaderMutex, SemaphoreWriter, SemaphoreReader,
                      WriterCount, ReaderCount, At[..])
    }

    // InitializeSyncSolution, lines 243-248.
    constructor (threads: nat)
      ensures fresh(At) && Value() == Solution2.Init(threads)
    {
      SemaphoreWriterMutex, SemaphoreReaderMutex, SemaphoreWriter, SemaphoreReader := 1, 1, 1, 1;
      WriterCount, ReaderCount := 0, 0;
      At := new Solution2.Pc[threads](_ => Solution2.Idle);
      new;
      assert At[..] == Solution2.Init(threads).pcs;
    }

    method Go(t: nat)
      requires t < At.Length && Solution2.CanGo(Value(), t)
      modifies this, At
      ensures Value() == Solution2.Go(old(Value()), t)
    {
      match At[t]
      case Writer(at) => GoWriter(t, at);
      case WriterInside =>
        At[t] := Solution2.WriterUp;
      case WriterUp =>
        SemaphoreWriter := SemaphoreWriter + 1;
        At[t] := Solution2.Writer(Switch.ExitDown);
      case GateDown =>
        SemaphoreReader := SemaphoreReader - 1;
        At[t] := Solution2.GateUp;
      case GateUp =>
        SemaphoreReader := SemaphoreReader + 1;
        At[t] := Solution2.Reader(Switch.Down);
      case Reader(at) => GoReader(t, at);
    }

    // Lines 270-277 and 341-347.
    method GoWriter(t: nat, at: Switch.Pc)
      requires t < At.Length && At[t] == Solution2.Writer(at) && Solution2.CanGo(Value(), t)
      modifies this, At
      ensures Value() == Solution2.Go(old(Value()), t)
    {
      match at
      case Down =>
        SemaphoreWriterMutex := SemaphoreWriterMutex - 1;
        At[t] := Solution2.Writer(Switch.Load);
      case Load =>
        At[t] := Solution2.Writer(Switch.Store(WriterCount));
      case Store(tmp) =>
        WriterCount := tmp + 1;
        At[t] := Solution2.Writer(Switch.Test);
      case Test =>
        At[t] := Solution2.Writer(if WriterCount == 1 then Switch.Acquire else Switch.UpMutex);
      case Acquire =>
        SemaphoreReader := SemaphoreReader - 1;
        At[t] := Solution2.Writer(Switch.UpMutex);
      case UpMutex =>
        SemaphoreWriterMutex := SemaphoreWriterMutex + 1;
        At[t] := Solution2.Writer(Switch.On);
      case On =>
        SemaphoreWriter := SemaphoreWriter - 1;
        At[t] := Solution2.WriterInside;
      case ExitDown =>
        SemaphoreWriterMutex := SemaphoreWriterMutex - 1;
        At[t] := Solution2.Writer(Switch.ExitLoad);
      case ExitLoad =>
        At[t] := Solution2.Writer(Switch.ExitStore(WriterCount));
      case ExitStore(tmp) =>
        WriterCount := tmp - 1;
        At[t] := Solution2.Writer(Switch.ExitTest);
      case ExitTest =>
        At[t] := Solution2.Writer(if WriterCount == 0 then Switch.Release else Switch.ExitUp);
      case Release =>
        SemaphoreReader := SemaphoreReader + 1;
        At[t] := Solution2.Writer(Switch.ExitUp);
      case ExitUp =>
        SemaphoreWriterMutex := SemaphoreWriterMutex + 1;
        At[t] := Solution2.Idle;
    }

    // Lines 310-316 and 382-388.
    method GoReader(t: nat, at: Switch.Pc)
      requires t < At.Length && At[t] == Solution2.Reader(at) && Solution2.CanGo(Value(), t)
      modifies this, At
      ensures Value() == Solution2.Go(old(Value()), t)
    {
      match at
      case Down =>
        SemaphoreReaderMutex := SemaphoreReaderMutex - 1;
        At[t] := Solution2.Reader(Switch.Load);
      case Load =>
        At[t] := Solution2.Reader(Switch.Store(ReaderCount));
      case Store(tmp) =>
        ReaderCount := tmp + 1;
        At[t] := Solution2.Reader(Switch.Test);
      case Test =>
        At[t] := Solution2.Reader(if ReaderCount == 1 then Switch.Acquire else Switch.UpMutex);
      case Acquire =>
        SemaphoreWriter := SemaphoreWriter - 1;
        At[t] := Solution2.Reader(Switch.UpMutex);
      case UpMutex =>
        SemaphoreReaderMutex := SemaphoreReaderMutex + 1;
        At[t] := Solution2.Reader(Switch.On);
      case On =>
        At[t] := Solution2.Reader(Switch.ExitDown);
      case ExitDown =>
        SemaphoreReaderMutex := SemaphoreReaderMutex - 1;
        At[t] := Solution2.Reader(Switch.ExitLoad);
      case ExitLoad =>
        At[t] := Solution2.Reader(Switch.ExitStore(ReaderCount));
      case ExitStore(tmp) =>
        ReaderCount := tmp - 1;
        At[t] := Solution2.Reader(Switch.ExitTest);
      case ExitTest =>
        At[t] := Solution2.Reader(if ReaderCount == 0 then Switch.Release else Switch.ExitUp);
      case Release =>
        SemaphoreWriter := SemaphoreWriter + 1;
        At[t] := Solution2.Reader(Switch.ExitUp);
      case ExitUp =>
        SemaphoreReaderMutex := SemaphoreReaderMutex + 1;
        At[t] := Solution2.Idle;
    }

    // With no new arrivals, any order of steps lets everybody out and leaves all as it began.
    method LetOut()
      requires Solution2.Inv(Value())
      modifies this, At
      ensures Value() == Solution2.Init(At.Length)
    {
      while exists i :: 0 <= i < At.Length && !At[i].Idle?
        invariant Solution2.Inv(Value())
        decreases Sum(At[..], Solution2.Rank)
      {
        ghost var enabled := Solution2.Progress(Value());
        var t: nat :| t < At.Length && Solution2.CanGo(Value(), t);
        Solution2.GoKeeps(Value(), t);
        Solution2.GoDescends(Value(), t);
        SumUpdate(At[..], t, Solution2.Go(Value(), t).pcs[t], Solution2.Rank);
        Go(t);
      }
      Solution2.AtRest(Value());
    }
  }

  class Protocol3 {
    var SemaphoreMutex: nat
    var SemaphoreWriter: nat
    var SemaphoreReader: nat
    var WriterCount: int
    var ReaderCount: int
    var WriterWaitingCount: int
    var ReaderWaitingCount: int
    const At: array<Solution3.Pc>

    function Value(): Solution3.State
      reads this, At
    {
      Solution3.State(SemaphoreMutex, SemaphoreWriter, SemaphoreReader, WriterCount, ReaderCount,
                      WriterWaitingCount, ReaderWaitingCount, At[..])
    }

    // InitializeSyncSolution, lines 252-258.
    constructor (threads: nat)
      ensures fresh(At) && Value() == Solution3.Init(threads)
    {
      SemaphoreMutex, SemaphoreWriter, SemaphoreReader := 1, 0, 0;
      WriterCount, ReaderCount, WriterWaitingCount, ReaderWaitingCount := 0, 0, 0, 0;
      At := new Solution3.Pc[threads](_ => Solution3.Idle);
      new;
      assert At[..] == Solution3.Init(threads).pcs;
    }

    method Go(t: nat)
      requires t < At.Length && Solution3.CanGo(Value(), t)
      modifies this, At
      ensures Value() == Solution3.Go(old(Value()), t)
    {
      match At[t]
      case Enter(role, at) =>
        if role.WriterRole? {
          EnterWriter(t, at);
        } else {
          EnterReader(t, at);
        }
      case In(role) =>
        At[t] := if role.WriterRole? then Solution3.LeaveWriter(Solution3.WDown)
                 else Solution3.LeaveReader(Solution3.RDown);
      case LeaveWriter(w) => LeaveWriter(t, w);
      case LeaveReader(r) => LeaveReader(t, r);
    }

    // Lines 280-291.
    method EnterWriter(t: nat, at: Solution3.EnterPc)
      requires t < At.Length && At[t] == Solution3.Enter(WriterRole, at) && Solution3.CanGo(Value(), t)
      modifies this, At
      ensures Value() == Solution3.Go(old(Value()), t)
    {
      var next := Solution3.Up;
      match at {
        case Down => SemaphoreMutex, next := SemaphoreMutex - 1, Solution3.Test;
        case Test =>
          if WriterCount > 0 || ReaderCount > 0 || WriterWaitingCount > 0 || ReaderWaitingCount > 0 {
            next := Solution3.LoadWait;
          } else {
            next := Solution3.Load;
          }
        case LoadWait => next := Solution3.StoreWait(WriterWaitingCount);
        case StoreWait(tmp) => WriterWaitingCount, next := tmp + 1, Solution3.UpWait;
        case UpWait => SemaphoreMutex, next := SemaphoreMutex + 1, Solution3.Sleep;
        case Sleep => SemaphoreWriter, next := SemaphoreWriter - 1, Solution3.Redown;
        case Redown => SemaphoreMutex, next := SemaphoreMutex - 1, Solution3.LoadWake;
        case LoadWake => next := Solution3.StoreWake(WriterWaitingCount);
        case StoreWake(tmp) => WriterWaitingCount, next := tmp - 1, Solution3.Load;
        case Load => next := Solution3.Store(WriterCount);
        case Store(tmp) => WriterCount := tmp + 1;
        case Up => SemaphoreMutex := SemaphoreMutex + 1;
      }
      At[t] := if at.Up? then Solution3.In(WriterRole) else Solution3.Enter(WriterRole, next);
    }

    // Lines 319-329.
    method EnterReader(t: nat, at: Solution3.EnterPc)
      requires t < At.Length && At[t] == Solution3.Enter(ReaderRole, at) && Solution3.CanGo(Value(), t)
      modifies this, At
      ensures Value() == Solution3.Go(old(Value()), t)
    {
      var next := Solution3.Up;
      match at {
        case Down => SemaphoreMutex, next := SemaphoreMutex - 1, Solution3.Test;
        case Test =>
          if WriterWaitingCount > 0 || WriterCount > 0 {
            next := Solution3.LoadWait;
          } else {
            next := Solution3.Load;
          }
        case LoadWait => next := Solution3.StoreWait(ReaderWaitingCount);
        case StoreWait(tmp) => ReaderWaitingCount, next := tmp + 1, Solution3.UpWait;
        case UpWait => SemaphoreMutex, next := SemaphoreMutex + 1, Solution3.Sleep;
        case Sleep => SemaphoreReader, next := SemaphoreReader - 1, Solution3.Redown;
        case Redown => SemaphoreMutex, next := SemaphoreMutex - 1, Solution3.LoadWake;
        case LoadWake => next := Solution3.StoreWake(ReaderWaitingCount);
        case StoreWake(tmp) => ReaderWaitingCount, next := tmp - 1, Solution3.Load;
        case Load => next := Solution3.Store(ReaderCount);
        case Store(tmp) => ReaderCount := tmp + 1;
        case Up => SemaphoreMutex := SemaphoreMutex + 1;
      }
      At[t] := if at.Up? then Solution3.In(ReaderRole) else Solution3.Enter(ReaderRole, next);
    }

    // Lines 352-365.
    method LeaveWriter(t: nat, w: Solution3.LeaveWriterPc)
      requires t < At.Length && At[t] == Solution3.LeaveWriter(w) && Solution3.CanGo(Value(), t)
      modifies this, At
      ensures Value() == Solution3.Go(old(Value()), t)
    {
      var next := Solution3.WUp;
      match w {
        case WDown => SemaphoreMutex, next := SemaphoreMutex - 1, Solution3.WLoad;
        case WLoad => next := Solution3.WStore(WriterCount);
        case WStore(tmp) => WriterCount, next := tmp - 1, Solution3.WTest;
        case WTest => next := if ReaderWaitingCount > 0 then Solution3.Loop(0) else Solution3.Else;
        case Loop(index) => if index < ReaderWaitingCount { next := Solution3.Post(index); }
        case Post(index) => SemaphoreReader, next := SemaphoreReader + 1, Solution3.Loop(index + 1);
        case Else => if WriterWaitingCount > 0 { next := Solution3.WWake; }
        case WWake => SemaphoreWriter := SemaphoreWriter + 1;
        case WUp => SemaphoreMutex := SemaphoreMutex + 1;
      }
      At[t] := if w.WUp? then Solution3.Idle else Solution3.LeaveWriter(next);
    }

    // Lines 391-397.
    method LeaveReader(t: nat, r: Solution3.LeaveReaderPc)
      requires t < At.Length && At[t] == Solution3.LeaveReader(r) && Solution3.CanGo(Value(), t)
      modifies this, At
      ensures Value() == Solution3.Go(old(Value()), t)
    {
      var next := Solution3.RUp;
      match r {
        case RDown => SemaphoreMutex, next := SemaphoreMutex - 1, Solution3.RLoad;
        case RLoad => next := Solution3.RStore(ReaderCount);
        case RStore(tmp) => ReaderCount, next := tmp - 1, Solution3.RTest;
        case RTest => if ReaderCount == 0 && WriterWaitingCount > 0 { next := Solution3.RWake; }
        case RWake => SemaphoreWriter := SemaphoreWriter + 1;
        case RUp => SemaphoreMutex := SemaphoreMutex + 1;
      }
      At[t] := if r.RUp? then Solution3.Idle else Solution3.LeaveReader(next);
    }

    // With no new arrivals, any order of steps lets everybody out; only unused tokens may remain.
    method LetOut()
      requires Solution3.Inv(Value())
      modifies this, At
      ensures Value() == Solution3.Init(At.Length).(writer := SemaphoreWriter, reader := SemaphoreReader)
    {
      while exists i :: 0 <= i < At.Length && !At[i].Idle?
        invariant Solution3.Inv(Value())
        decreases Sum(At[..], Solution3.Ranks(At.Length))
      {
        ghost var enabled := Solution3.Progress(Value());
        var t: nat :| t < At.Length && Solution3.CanGo(Value(), t);
        Solution3.GoKeeps(Value(), t);
        Solution3.GoDescends(Value(), t);
        SumUpdate(At[..], t, Solution3.Go(Value(), t).pcs[t], Solution3.Ranks(At.Length));
        Go(t);
      }
      Solution3.AtRest(Value());
    }
  }
}
