// The micro-steps of Kboard refine the atomic queue of Fifo, provided two writers are never inside
// together.
module Linearization {
  import opened Ring
  import opened Fifo
  import opened Zones
  import opened Kboard

  // The answer that is fixed for a thread and that it has not returned with yet.
  function Pending(job: Job): seq<(Op, Response)> {
    match job
    case Running(op, at) => if Decided(at) then [(op, Answer(at))] else []
    case Finished(op, response) => [(op, response)]
    case _ => []
  }

  // ---- Whatever the protocol does ----

  // Thread by thread, the log holds the answers already returned and the one about to be.
  ghost predicate Recorded(s: State) {
    && |s.past| == |s.jobs|
    && (forall k :: 0 <= k < |s.log| ==> s.log[k].tid < |s.jobs|)
    && forall t :: 0 <= t < |s.jobs| ==> Answers(s.log, t) == s.past[t] + Pending(s.jobs[t])
  }

  lemma AnswerStaysFixed(b: Board, op: Op, at: Body)
    requires InBounds(b) && Fits(op, at) && Decided(at) && !at.Done?
    ensures Decided(BodyStep(b, op, at).1) && Answer(BodyStep(b, op, at).1) == Answer(at)
  {
  }

  lemma AccessRecorded(s: State, t: nat)
    requires Recorded(s) && t < |s.jobs| && CanAccess(s, t)
    ensures Recorded(Access(s, t))
  {
    var s' := Access(s, t);
    if Decided(s.jobs[t].at) { AnswerStaysFixed(s.board, s.jobs[t].op, s.jobs[t].at); }
    forall j | 0 <= j < |s'.jobs|
      ensures Answers(s'.log, j) == s'.past[j] + Pending(s'.jobs[j])
    {
      if s'.log != s.log {
        AnswersAppend(s.log, Event(t, s.jobs[t].op, Answer(s'.jobs[t].at)), j);
      }
    }
  }

  // The answer pending for a thread that returns becomes the last of its returned answers.
  lemma MoveRecorded(s: State, t: nat, zone: Zone)
    requires Recorded(s) && t < |s.jobs| && CanMove(s, t, zone)
    ensures Recorded(Move(s, t, zone))
  {
  }

  lemma CallRecorded(s: State, t: nat, op: Op)
    requires Recorded(s) && t < |s.jobs| && s.jobs[t].Free?
    ensures Recorded(s.(jobs := s.jobs[t := Waiting(op)]))
  {
  }

  lemma RejectRecorded(s: State, t: nat, item: int)
    requires Recorded(s) && t < |s.jobs| && s.jobs[t].Free?
    ensures Recorded(Reject(s, t, item))
  {
    var s' := Reject(s, t, item);
    forall j | 0 <= j < |s.jobs|
      ensures Answers(s'.log, j) == s'.past[j] + Pending(s.jobs[j])
    {
      AnswersAppend(s.log, Event(t, Enqueue(item), Invalid), j);
    }
  }

  // ---- When two writers are never inside together ----

  // The log is a history of the atomic queue, and the board is where that queue is.
  ghost predicate Inv(s: State) {
    && WellFormed(s)
    && Replay(Cap(s), s.log).Legal?
    && OnBoard(s.board, Replay(Cap(s), s.log).queue, s.jobs)
  }

  // The ring shows the queue; a writer inside finds the counts as its program point expects; with no
  // writer inside they are those of the queue.
  ghost predicate OnBoard(b: Board, q: Queue, jobs: seq<Job>) {
    && Shows(b, q)
    && (forall t :: 0 <= t < |jobs| && Writing(jobs[t]) ==> Midway(b, q, jobs[t].at))
    && ((forall t :: 0 <= t < |jobs| ==> !Writing(jobs[t])) ==> Stands(b, q))
  }

  lemma InitInv(cap: nat, n: nat)
    requires cap > 0
    ensures Inv(Init(cap, n)) && Recorded(Init(cap, n))
  {
    EmptyRepresents(Init(cap, n).board.ring);
  }

  // A reader's step changes PerformReader at most.
  lemma ReaderStepOnBoard(b: Board, q: Queue, jobs: seq<Job>, t: nat, performReader: int, at': Body)
    requires OnBoard(b, q, jobs) && t < |jobs| && jobs[t].Running? && jobs[t].op.Peek?
    ensures OnBoard(b.(performReader := performReader), q, jobs[t := Running(jobs[t].op, at')])
  {
    var jobs' := jobs[t := Running(jobs[t].op, at')];
    assert forall j :: 0 <= j < |jobs| ==> Writing(jobs'[j]) == Writing(jobs[j]);
  }

  // A writer's step only has to satisfy the writer itself: no other writer is inside.
  lemma WriterStepOnBoard(b': Board, q': Queue, jobs: seq<Job>, t: nat, at': Body)
    requires Solitary(jobs) && t < |jobs| && Writing(jobs[t])
    requires Shows(b', q') && Midway(b', q', at')
    ensures OnBoard(b', q', jobs[t := Running(jobs[t].op, at')])
  {
    var jobs' := jobs[t := Running(jobs[t].op, at')];
    assert Writing(jobs'[t]);
  }

  // One step of a critical section, readers being inside or not: either the log and the queue stay as
  // they are, or the log grows by this thread's answer, which is what the atomic queue answers, and the
  // queue follows.
  lemma AccessKeeps(s: State, t: nat)
    requires Inv(s) && Solitary(s.jobs) && t < |s.jobs| && CanAccess(s, t)
    ensures Inv(Access(s, t))
  {
    var s' := Access(s, t);
    var q := Replay(Cap(s), s.log).queue;
    var op, at, at' := s.jobs[t].op, s.jobs[t].at, s'.jobs[t].at;
    BodyRefines(s.board, q, op, at);
    AccessStaysWellFormed(s, t);
    if s'.log != s.log {
      ReplayAppend(Cap(s), s.log, Event(t, op, Answer(at')));
    }
    if op.Peek? {
      ReaderStepOnBoard(s.board, q, s.jobs, t, s'.board.performReader, at');
    } else {
      WriterStepOnBoard(s'.board, Replay(Cap(s), s'.log).queue, s.jobs, t, at');
    }
  }

  // A job that changes without an access, and is not one of a writer that works.
  lemma JobChanges(s: State, t: nat, job: Job)
    requires Inv(s) && t < |s.jobs| && JobFits(Cap(s), job)
    requires Writing(s.jobs[t]) ==> s.jobs[t].at.Done?
    requires Writing(job) ==> job.at.LoadPerform? && Solitary(s.jobs[t := job])
    ensures Inv(s.(jobs := s.jobs[t := job]))
  {
    var q, jobs' := Replay(Cap(s), s.log).queue, s.jobs[t := job];
    assert forall j :: 0 <= j < |s.jobs| && j != t ==> jobs'[j] == s.jobs[j];
    if Writing(s.jobs[t]) {
      assert Midway(s.board, q, s.jobs[t].at);
    } else if Writing(job) {
      assert Writing(jobs'[t]);
      assert forall j :: 0 <= j < |s.jobs| ==> !Writing(s.jobs[j]);
    } else {
      assert forall j :: 0 <= j < |s.jobs| ==> Writing(jobs'[j]) == Writing(s.jobs[j]);
    }
  }

  // Calls, protocol steps and returns do not touch the board or the log.
  lemma MoveKeeps(s: State, t: nat, zone: Zone)
    requires Inv(s) && t < |s.jobs| && CanMove(s, t, zone)
    requires Solitary(Move(s, t, zone).jobs)
    ensures Inv(Move(s, t, zone))
  {
    var s' := Move(s, t, zone);
    assert JobFits(Cap(s), s.jobs[t]);
    if s'.jobs != s.jobs {
      JobChanges(s, t, s'.jobs[t]);
    }
  }

  // A negative number is answered as the atomic queue answers it, without a change.
  lemma RejectKeeps(s: State, t: nat, item: int)
    requires Inv(s) && t < |s.jobs| && s.jobs[t].Free? && item < 0
    ensures Inv(Reject(s, t, item))
  {
    ReplayAppend(Cap(s), s.log, Event(t, Enqueue(item), Invalid));
    assert WellFormed(Reject(s, t, item));
    assert Replay(Cap(s), Reject(s, t, item).log) == Replay(Cap(s), s.log);
  }

  // The address computed at line 487 is one of the ring.
  lemma AddressInRange(s: State, t: nat)
    requires Inv(s) && t < |s.jobs| && s.jobs[t].Running? && s.jobs[t].at.FillSlot?
    ensures 0 <= s.jobs[t].at.slot < Cap(s)
  {
    assert JobFits(Cap(s), s.jobs[t]);
    assert Writing(s.jobs[t]);
  }

  // With no writer inside, RingBufferCount is the number of accepted enqueues less the number of
  // accepted dequeues, and the ring holds exactly the accepted items not yet delivered.
  lemma QuietBoard(s: State)
    requires Inv(s) && forall t :: 0 <= t < |s.jobs| ==> !Writing(s.jobs[t])
    ensures Accepted(s.log) == Delivered(s.log) + Replay(Cap(s), s.log).queue.items
    ensures Represents(s.board.ring, s.board.count, s.board.index, Replay(Cap(s), s.log).queue.items)
    ensures s.board.count == |Accepted(s.log)| - |Delivered(s.log)|
  {
    FirstInFirstOut(Cap(s), s.log);
  }
}
