// What a thread can do, under each of the three protocols: call any operation whenever it is outside, take
// every step its protocol lets it take, and be served, with the one right answer.
module ServiceCalls {
  import opened Zones
  import opened Fifo
  import opened Service
  import opened ServiceRuns
  import Kboard
  import Linearization

  // ---- Calls and steps ----

  // A thread can call any operation exactly when it is outside; it then goes for its critical section in
  // the role of the operation, unless it is turned away at once.
  lemma CallExactlyWhenOutside(s: State, t: nat, op: Op)
    requires Inv(s) && t < Threads(s.sync)
    ensures CanDo(s, Call(t, op)) <==> ZoneOf(s.sync, t).Outside?
    ensures CanDo(s, Call(t, op)) ==>
              var zone := ZoneOf(Do(s, Call(t, op)).sync, t);
              zone == (if Kboard.Rejected(op) then Outside else Entering(Kboard.RoleOf(op)))
  {
    assert Agrees(ZoneOf(s.sync, t), s.board.jobs[t]);
    if ZoneOf(s.sync, t).Outside? { ArriveKeeps(s.sync, t, Kboard.RoleOf(op)); }
  }

  ghost predicate OnlyWork(sched: seq<Choice>, sched': seq<Choice>, t: nat) {
    sched <= sched' && forall i :: |sched| <= i < |sched'| ==> sched'[i] == Work(t)
  }

  // A thread inside can finish its critical section without anybody else moving.
  lemma {:induction false} FinishWork(s: State, sched: seq<Choice>, t: nat) returns (sched': seq<Choice>)
    requires CanRun(s, sched) && Inv(Run(s, sched))
    requires t < Threads(Run(s, sched).sync) && ZoneOf(Run(s, sched).sync, t).Inside?
    ensures OnlyWork(sched, sched', t) && Calls(sched') == Calls(sched)
    ensures CanRun(s, sched') && Run(s, sched').sync == Run(s, sched).sync && Inv(Run(s, sched'))
    ensures Run(s, sched').board.jobs[t].Running? && Run(s, sched').board.jobs[t].at.Done?
    decreases Kboard.WorkLeft(Run(s, sched).board.jobs[t])
  {
    var here := Run(s, sched);
    assert Agrees(ZoneOf(here.sync, t), here.board.jobs[t]);
    if here.board.jobs[t].at.Done? {
      sched' := sched;
    } else {
      Kboard.AccessStaysWellFormed(here.board, t);
      var one := Then(s, sched, Work(t));
      StepKeeps(here, Work(t));
      sched' := FinishWork(s, one, t);
    }
  }

  // Whatever step the protocol lets a thread take next, the module lets it take, once it has finished its
  // work if it is inside; nobody else need move.
  lemma AdvancesWithProtocol(s: State, sched: seq<Choice>, t: nat) returns (before: seq<Choice>)
    requires CanRun(s, sched) && Inv(Run(s, sched))
    requires t < Threads(Run(s, sched).sync) && CanGo(Run(s, sched).sync, t)
    ensures OnlyWork(sched, before, t) && CanRun(s, before + [Step(t)])
    ensures Run(s, before + [Step(t)]).sync == Go(Run(s, sched).sync, t)
    ensures Calls(before + [Step(t)]) == Calls(sched)
  {
    var sync := Run(s, sched).sync;
    GoKeeps(sync, t);
    before := sched;
    if ZoneOf(sync, t).Inside? {
      before := FinishWork(s, sched, t);
    } else {
      assert Agrees(ZoneOf(sync, t), Run(s, sched).board.jobs[t]);
    }
    var after := Then(s, before, Step(t));
  }

  // ---- One request, from the call to the return, with everybody else outside ----

  // b is what has become of b0 since thread t, alone in the module, called op.
  ghost predicate Serving(b0: Kboard.State, b: Kboard.State, t: nat, op: Op) {
    && t < |b.jobs| == |b0.jobs| == |b.past| == |b0.past|
    && (forall i :: 0 <= i < |b.jobs| && i != t ==> b.jobs[i].Free? && b.past[i] == b0.past[i])
    && match b.jobs[t]
       case Waiting(o) => o == op && b.past[t] == b0.past[t] && b.log == b0.log
       case Running(o, at) =>
         && o == op && b.past[t] == b0.past[t]
         && b.log == (if Kboard.Decided(at) then b0.log + [Event(t, op, Kboard.Answer(at))] else b0.log)
       case Finished(o, response) => o == op && b.past[t] == b0.past[t] && b.log == b0.log + [Event(t, op, response)]
       case Free => Answered(b0, b, t, op)
  }

  // The request has been answered: the answer is in the log and with the thread.
  ghost predicate Answered(b0: Kboard.State, b: Kboard.State, t: nat, op: Op)
    requires t < |b.past| && t < |b0.past|
  {
    exists response :: b.log == b0.log + [Event(t, op, response)] && b.past[t] == b0.past[t] + [(op, response)]
  }

  // Nobody but the thread that is served can step.
  lemma OnlyServed(s: State, c: Choice, b0: Kboard.State, t: nat, op: Op)
    requires Inv(s) && CanDo(s, c) && !c.Call? && Serving(b0, s.board, t, op)
    ensures c.tid == t
  {
    assert Agrees(ZoneOf(s.sync, c.tid), s.board.jobs[c.tid]);
    if c.Step? { GoKeeps(s.sync, c.tid); }
  }

  lemma MoveServes(b0: Kboard.State, b: Kboard.State, t: nat, op: Op, zone: Zone)
    requires Serving(b0, b, t, op) && Kboard.CanMove(b, t, zone)
    ensures Serving(b0, Kboard.Move(b, t, zone), t, op)
  {
    var b', job := Kboard.Move(b, t, zone), b.jobs[t];
    if job.Finished? && zone.Outside? {
      assert b'.log == b0.log + [Event(t, op, job.response)] && b'.past[t] == b0.past[t] + [(op, job.response)];
    }
  }

  lemma AccessServes(b0: Kboard.State, b: Kboard.State, t: nat, op: Op)
    requires Serving(b0, b, t, op) && Kboard.CanAccess(b, t)
    ensures Serving(b0, Kboard.Access(b, t), t, op)
  {
    if Kboard.Decided(b.jobs[t].at) { Linearization.AnswerStaysFixed(b.board, op, b.jobs[t].at); }
  }

  // A run that goes on, without its last step.
  lemma BeforeLast(s: State, sched: seq<Choice>, more: seq<Choice>)
    requires CanRun(s, sched + more) && more != []
    ensures var before, c := sched + more[..|more| - 1], more[|more| - 1];
            && CanRun(s, before) && CanDo(Run(s, before), c) && Run(s, sched + more) == Do(Run(s, before), c)
            && (sched + more)[..|sched + more| - 1] == before
  {
    assert (sched + more)[..|sched + more| - 1] == sched + more[..|more| - 1];
  }

  lemma {:induction false} RunServes(s: State, sched: seq<Choice>, more: seq<Choice>,
                                     b0: Kboard.State, t: nat, op: Op)
    requires Inv(s) && CanRun(s, sched) && CanRun(s, sched + more) && NoCalls(more)
    requires Serving(b0, Run(s, sched).board, t, op)
    ensures Serving(b0, Run(s, sched + more).board, t, op)
  {
    if more == [] {
      assert sched + more == sched;
    } else {
      var before := more[..|more| - 1];
      BeforeLast(s, sched, more);
      RunServes(s, sched, before, b0, t, op);
      RunKeeps(s, sched + before);
      StepServes(Run(s, sched + before), more[|more| - 1], b0, t, op);
    }
  }

  lemma {:induction false} ServedRunIsSole(s: State, sched: seq<Choice>, more: seq<Choice>,
                                           b0: Kboard.State, t: nat, op: Op)
    requires Inv(s) && CanRun(s, sched) && CanRun(s, sched + more) && NoCalls(more)
    requires Serving(b0, Run(s, sched).board, t, op) && SoleRun(s, sched, WriterRole)
    ensures SoleRun(s, sched + more, WriterRole)
  {
    if more == [] {
      assert sched + more == sched;
    } else {
      BeforeLast(s, sched, more);
      ServedRunIsSole(s, sched, more[..|more| - 1], b0, t, op);
      RunServes(s, sched, more, b0, t, op);
      RunKeeps(s, sched + more);
      ServedIsSole(Run(s, sched + more), b0, t, op);
    }
  }

  lemma StepServes(s: State, c: Choice, b0: Kboard.State, t: nat, op: Op)
    requires Inv(s) && CanDo(s, c) && !c.Call? && Serving(b0, s.board, t, op)
    ensures Serving(b0, Do(s, c).board, t, op)
  {
    OnlyServed(s, c, b0, t, op);
    if c.Step? {
      MoveServes(b0, s.board, t, op, ZoneOf(Go(s.sync, t), t));
    } else {
      AccessServes(b0, s.board, t, op);
    }
  }

  lemma ServedIsSole(s: State, b0: Kboard.State, t: nat, op: Op)
    requires Inv(s) && Serving(b0, s.board, t, op)
    ensures Sole(ZonesOf(s.sync), WriterRole)
  {
    var zones := ZonesOf(s.sync);
    forall i | 0 <= i < |zones| && zones[i] == Inside(WriterRole)
      ensures i == t
    {
      assert Agrees(ZoneOf(s.sync, i), s.board.jobs[i]);
    }
  }

  // Every call is served: whenever a run has everybody outside, any thread can call any operation, and with
  // no other call the run can go on until everybody is outside again. The thread has then been given one
  // answer more; if two writers were never inside together, it is the one right answer after the answers
  // given before.
  lemma EveryCallIsServed(s: State, sched: seq<Choice>, t: nat, op: Op)
    returns (more: seq<Choice>, response: Response)
    requires IsInit(s) && CanRun(s, sched) && AllOutside(Run(s, sched)) && t < Threads(s.sync)
    ensures NoCalls(more) && CanRun(s, sched + [Call(t, op)] + more)
    ensures AllOutside(Run(s, sched + [Call(t, op)] + more))
    ensures var b, b' := Run(s, sched).board, Run(s, sched + [Call(t, op)] + more).board;
            && t < |b.past| && b'.past == b.past[t := b.past[t] + [(op, response)]]
            && b'.log == b.log + [Event(t, op, response)]
            && (WritersApart(s, sched) ==> Right(Kboard.Cap(s.board), b.log, op, response))
  {
    InitInv(s);
    RunKeeps(s, sched);
    var b := Run(s, sched).board;
    var called := CallsAlone(s, sched, t, op);
    var done := CanFinish(s, called);
    more := done[|called|..];
    assert done == called + more;
    RunServes(s, called, more, b, t, op);
    RunKeeps(s, done);
    response := IsAnswered(Run(s, done), b, t, op);
    if WritersApart(s, sched) {
      ApartIsSole(s, sched);
      CallIsSole(s, sched, t, op);
      ServedRunIsSole(s, called, more, b, t, op);
      LogIsRight(s, done, b.log, Event(t, op, response));
    }
  }

  lemma CallsAlone(s: State, sched: seq<Choice>, t: nat, op: Op) returns (called: seq<Choice>)
    requires Inv(s) && CanRun(s, sched) && AllOutside(Run(s, sched)) && t < Threads(s.sync)
    ensures called == sched + [Call(t, op)] && CanRun(s, called)
    ensures Serving(Run(s, sched).board, Run(s, called).board, t, op)
  {
    RunKeeps(s, sched);
    assert ZoneOf(Run(s, sched).sync, t).Outside?;
    CallExactlyWhenOutside(Run(s, sched), t, op);
    StartsServing(Run(s, sched), t, op);
    called := Then(s, sched, Call(t, op));
  }

  lemma CallIsSole(s: State, sched: seq<Choice>, t: nat, op: Op)
    requires Inv(s) && CanRun(s, sched) && CanRun(s, sched + [Call(t, op)]) && SoleRun(s, sched, WriterRole)
    requires Serving(Run(s, sched).board, Run(s, sched + [Call(t, op)]).board, t, op)
    ensures SoleRun(s, sched + [Call(t, op)], WriterRole)
  {
    var called := sched + [Call(t, op)];
    RunKeeps(s, called);
    ServedIsSole(Run(s, called), Run(s, sched).board, t, op);
    assert called[..|called| - 1] == sched;
  }

  lemma IsAnswered(s: State, b0: Kboard.State, t: nat, op: Op) returns (response: Response)
    requires Inv(s) && AllOutside(s) && Serving(b0, s.board, t, op)
    ensures s.board.log == b0.log + [Event(t, op, response)]
    ensures s.board.past == b0.past[t := b0.past[t] + [(op, response)]]
  {
    EverybodyFree(s);
    response :| s.board.log == b0.log + [Event(t, op, response)] && s.board.past[t] == b0.past[t] + [(op, response)];
  }

  lemma StartsServing(s: State, t: nat, op: Op)
    requires Inv(s) && AllOutside(s) && CanDo(s, Call(t, op))
    ensures Serving(s.board, Do(s, Call(t, op)).board, t, op)
  {
    EverybodyFree(s);
    var b' := Do(s, Call(t, op)).board;
    if Kboard.Rejected(op) {
      assert b'.log == s.board.log + [Event(t, op, Invalid)] && b'.past[t] == s.board.past[t] + [(op, Invalid)];
    }
  }

  lemma EverybodyFree(s: State)
    requires Inv(s) && AllOutside(s)
    ensures forall i :: 0 <= i < |s.board.jobs| ==> s.board.jobs[i].Free?
  {
    forall i | 0 <= i < |s.board.jobs|
      ensures s.board.jobs[i].Free?
    {
      assert Agrees(ZoneOf(s.sync, i), s.board.jobs[i]);
    }
  }

  lemma LogIsRight(s: State, sched: seq<Choice>, log: seq<Event>, e: Event)
    requires IsInit(s) && CanRun(s, sched) && SoleRun(s, sched, WriterRole) && Run(s, sched).board.log == log + [e]
    ensures Right(Kboard.Cap(s.board), log, e.op, e.response)
  {
    Linearizable(s, sched);
    LegalExactlyWhenRight(Kboard.Cap(s.board), log + [e]);
    AllRightAppend(Kboard.Cap(s.board), log, e);
  }
}
