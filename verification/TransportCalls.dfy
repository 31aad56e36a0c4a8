/** The calls of the restartable transport as the program runs them, each without interruption
    but with any number of other goroutines standing by. Each call is a stretch of a run of the
    protocol in `Transport`. */
module TransportCalls {
  import opened Common
  import opened Transport

  /** A session after its close has returned. */
  function Shut(session: Session, intentional: bool): Session {
    if session.once.Finished? then session.(closing := session.closing || intentional)
    else Session(true, Finished, if session.ended.Some? then session.ended else Some(Deliberate))
  }

  /** What may be done with a transport: a call of it, the end of a session, or its worker. */
  datatype TransportCall =
    | ConnectCall(ok: bool)
    | CloseConnectionCall(id: Id)
    | CloseCall
    | SessionEndCall(id: Id)
    | WorkerCall(id: Id)

  /** A session ended, its worker ran later, and the transport had not been closed by then. */
  predicate Reported(script: seq<TransportCall>, id: Id) {
    exists k, m :: 0 <= k < m < |script| && EndThenWorker(script, k, m, id)
  }

  predicate EndThenWorker(script: seq<TransportCall>, k: nat, m: nat, id: Id)
    requires k < m < |script|
  {
    script[k] == SessionEndCall(id) && script[m] == WorkerCall(id) && CloseCall !in script[..m]
  }

  /** A session that has ended and that nobody has closed. */
  predicate EndedUnclosed(sessions: map<Id, Session>, id: Id) {
    id in sessions && sessions[id].ended.Some? && !sessions[id].closing
  }

  /** These workers still wait for the end of their session. */
  predicate WorkersWait(workers: set<Id>, threads: map<Thread, Pc>) {
    forall id :: id in workers ==> Worker(id) in threads && threads[Worker(id)] == WorkerWait(id)
  }

  /** A step of another goroutine leaves them waiting. */
  lemma WaitStep(s: State, step: Step, workers: set<Id>)
    requires Enabled(s, step) && WorkersWait(workers, s.threads)
    requires step.Work? && step.thread.Worker? ==> step.thread.id !in workers
    ensures WorkersWait(workers, Apply(s, step).threads)
  {
    if step.Work? && s.threads[step.thread].Entering? {
      hide ClosingTransport, ClosingSession, Working;
    } else {
      hide Advance;
    }
  }

  function Elements(s: seq<Id>): set<Id> {
    set x | x in s
  }

  class RestartableTransport {
    var canceled: bool
    var closed: bool
    var nextId: nat
    var table: set<Id>
    var sessions: map<Id, Session>
    var closing: Once

    /** The sessions whose worker still waits for their end. */
    var workers: set<Id>

    /** The failure channel holds at most one report. */
    var failure: Option<Id>

    /** The protocol run this transport has been through. */
    ghost var states: seq<State>
    ghost var steps: seq<Step>

    ghost function Now(): State
      reads this
      requires |states| > 0
    {
      states[|states| - 1]
    }

    ghost predicate Mirrors()
      reads this
    {
      && Run(states, steps)
      && var s := Now();
         && s.canceled == canceled && s.closed == closed && s.nextId == nextId && s.table == table
         && s.sessions == sessions && s.closing == closing
         && s.failures == (if failure.Some? then [failure.value] else [])
         && workers <= sessions.Keys
         && WorkersWait(workers, s.threads)
    }

    /** No goroutine is inside a once, so no call has to wait. */
    ghost predicate Valid()
      reads this
    {
      Mirrors() && !closing.Running? && forall id :: id in sessions ==> !sessions[id].once.Running?
    }

    ghost predicate Running(t: Thread, pc: Pc)
      reads this
    {
      Mirrors() && t in Now().threads && Now().threads[t] == pc
    }

    constructor ()
      ensures Valid() && !canceled && !closed && table == {} && sessions == map[] && closing.Fresh?
      ensures failure.None? && workers == {}
    {
      canceled, closed, nextId, table, sessions, closing, failure := false, false, 0, {}, map[], Fresh, None;
      workers := {};
      states, steps := [INITIAL], [];
    }

    /** What every run guarantees about the shared state. */
    lemma Facts()
      requires Mirrors()
      ensures forall id :: id in table ==> id in sessions && !sessions[id].once.Finished?
      ensures forall id :: id in sessions ==> id <= nextId
      ensures closing.Finished? ==> closed && canceled && table == {}
    {
      RunInv(states, steps, |steps|);
    }

    /** A session whose end was reported ended by itself, before anybody closed it or canceled
        the transport. */
    lemma ReportedEndWasUnexpected()
      requires Mirrors() && failure.Some?
      ensures failure.value in sessions && sessions[failure.value].ended == Some(Unexpected)
    {
      OnlyUnexpectedEndsAreReported(states, steps, |steps|, failure.value);
    }

    ghost method Take(step: Step)
      requires Run(states, steps) && Enabled(Now(), step) && WorkersWait(workers, Now().threads)
      requires step.Work? ==> Free(step.thread)
      modifies this`states, this`steps
      ensures states == old(states) + [Apply(old(Now()), step)] && steps == old(steps) + [step]
      ensures Run(states, steps)
      ensures WorkersWait(workers, Now().threads)
    {
      WaitStep(Now(), step, workers);
      hide Apply, WorkersWait;
      states, steps := states + [Apply(Now(), step)], steps + [step];
    }

    /** This goroutine is not a worker that still waits. */
    predicate Free(t: Thread)
      reads this
    {
      t.Worker? ==> t.id !in workers
    }

    /** One more step of goroutine `t`. */
    ghost method Move(t: Thread, ok: bool, order: seq<Id>)
      requires Run(states, steps) && t in Now().threads && Ready(Now(), Now().threads[t], Choice(ok, order))
      requires Free(t) && WorkersWait(workers, Now().threads)
      modifies this`states, this`steps
      ensures old(states) <= states && old(steps) <= steps && Run(states, steps)
      ensures Now() == Advance(old(Now()), t, Choice(ok, order)) && WorkersWait(workers, Now().threads)
    {
      Take(Work(t, Choice(ok, order)));
    }

    /** Connects a session, unless the transport is canceled or closed or the library fails. */
    method Connect(ghost n: nat, ok: bool) returns (id: Option<Id>)
      requires Valid() && Caller(n) !in Now().threads
      modifies this
      ensures Valid() && old(states) <= states && old(steps) <= steps && Running(Caller(n), Returned(id))
      ensures id.Some? <==> !canceled && !closed && ok
      ensures if id.None? then table == old(table) && sessions == old(sessions) && nextId == old(nextId)
              else id.value !in old(sessions) && table == old(table) + {id.value} && nextId == old(nextId) + 1
                   && sessions == old(sessions)[id.value := Session(false, Fresh, None)]
      ensures workers == if id.None? then old(workers) else old(workers) + {id.value}
      ensures canceled == old(canceled) && closed == old(closed) && closing == old(closing) && failure == old(failure)
    {
      hide Run, WorkersWait;
      var connected := OpenSession(n, ok);
      if !connected { return None; }
      id := Admit(n);
    }

    /** The part without the mutex: the context is looked at and the library connects. */
    method OpenSession(ghost n: nat, ok: bool) returns (done: bool)
      requires Mirrors() && Caller(n) !in Now().threads
      modifies this`states, this`steps
      ensures old(states) <= states && old(steps) <= steps
      ensures done == (!canceled && ok) && Running(Caller(n), if done then Entering else Returned(None))
    {
      hide ClosingTransport, ClosingSession, Working, WorkersWait;
      Take(CallConnect(n));
      Move(Caller(n), true, []);
      if canceled { return false; }
      Move(Caller(n), ok, []);
      done := ok;
    }

    ghost method Enter(n: nat)
      requires Running(Caller(n), Entering)
      modifies this`states, this`steps
      ensures old(states) <= states && old(steps) <= steps && Run(states, steps)
      ensures Now() == if closed then old(Now()).At(Caller(n), Returned(None))
                       else Entered(old(Now()), Caller(n), nextId + 1)
      ensures WorkersWait(workers, Now().threads)
    {
      hide ClosingTransport, ClosingSession, Working, WorkersWait;
      Move(Caller(n), true, []);
    }

    /** The part under the mutex. */
    method Admit(ghost n: nat) returns (id: Option<Id>)
      requires Running(Caller(n), Entering)
      modifies this
      ensures old(states) <= states && old(steps) <= steps && Running(Caller(n), Returned(id))
      ensures id == if closed then None else Some(old(nextId) + 1)
      ensures if closed then table == old(table) && sessions == old(sessions) && nextId == old(nextId)
              else nextId == old(nextId) + 1 && nextId !in old(sessions) && table == old(table) + {nextId}
                   && sessions == old(sessions)[nextId := Session(false, Fresh, None)]
      ensures workers == if id.None? then old(workers) else old(workers) + {id.value}
      ensures canceled == old(canceled) && closed == old(closed) && closing == old(closing) && failure == old(failure)
    {
      hide Advance;
      Facts();
      Enter(n);
      if closed { return None; }
      nextId := nextId + 1;
      table, sessions := table + {nextId}, sessions[nextId := Session(false, Fresh, None)];
      workers := workers + {nextId};
      id := Some(nextId);
    }

    /** Closes one session: `todo` are the sessions the goroutine still closes, this one first. */
    method CloseOne(ghost t: Thread, ghost todo: seq<Id>, id: Id, intentional: bool, ghost owner: bool)
      requires Free(t)
      requires todo != [] && todo[0] == id && id in sessions && !sessions[id].once.Running?
      requires Running(t, StoreClosing(todo, intentional, owner))
      modifies this`table, this`sessions, this`states, this`steps
      ensures old(states) <= states && old(steps) <= steps && Mirrors() && Running(t, Next(todo[1..], owner))
      ensures sessions == old(sessions)[id := Shut(old(sessions)[id], intentional)]
      ensures table == if old(sessions)[id].once.Finished? then old(table) else old(table) - {id}
    {
      hide Running, Mirrors;
      StoreFlag(t, todo, id, intentional, owner);
      if !sessions[id].once.Finished? {
        EnterOnce(t, todo, id, owner);
        ShutDown(t, todo, id, owner);
      } else {
        SkipOnce(t, todo, id, owner);
      }
      RunningMirrors(t, Next(todo[1..], owner));
    }

    lemma RunningMirrors(t: Thread, pc: Pc)
      requires Running(t, pc)
      ensures Mirrors()
    {
    }

    method StoreFlag(ghost t: Thread, ghost todo: seq<Id>, id: Id, intentional: bool, ghost owner: bool)
      requires Free(t)
      requires todo != [] && todo[0] == id && id in sessions
      requires Running(t, StoreClosing(todo, intentional, owner))
      modifies this`sessions, this`states, this`steps
      ensures old(states) <= states && old(steps) <= steps && Running(t, OnceBegin(todo, owner))
      ensures sessions == old(sessions)[id := old(sessions)[id].(closing := old(sessions)[id].closing || intentional)]
    {
      hide Connecting, ClosingTransport, Working, WorkersWait;
      if intentional { sessions := sessions[id := sessions[id].(closing := true)]; }
      Move(t, true, []);
    }

    ghost method SkipOnce(t: Thread, todo: seq<Id>, id: Id, owner: bool)
      requires Free(t)
      requires todo != [] && todo[0] == id && id in sessions && sessions[id].once.Finished?
      requires Running(t, OnceBegin(todo, owner))
      modifies this`states, this`steps
      ensures old(states) <= states && old(steps) <= steps && Running(t, Next(todo[1..], owner))
    {
      hide Connecting, ClosingTransport, Working, WorkersWait;
      Move(t, true, []);
    }

    method EnterOnce(ghost t: Thread, ghost todo: seq<Id>, id: Id, ghost owner: bool)
      requires Free(t)
      requires todo != [] && todo[0] == id && id in sessions && sessions[id].once.Fresh?
      requires Running(t, OnceBegin(todo, owner))
      modifies this`sessions, this`states, this`steps
      ensures old(states) <= states && old(steps) <= steps && Running(t, Shutting(todo, owner))
      ensures sessions == old(sessions)[id := old(sessions)[id].(once := Once.Running)]
    {
      hide Connecting, ClosingTransport, Working, WorkersWait;
      sessions := sessions[id := sessions[id].(once := Once.Running)];
      Move(t, true, []);
    }

    /** The body of the once of a session. */
    method ShutDown(ghost t: Thread, ghost todo: seq<Id>, id: Id, ghost owner: bool)
      requires Free(t)
      requires todo != [] && todo[0] == id && id in sessions
      requires Running(t, Shutting(todo, owner))
      modifies this`table, this`sessions, this`states, this`steps
      ensures old(states) <= states && old(steps) <= steps && Running(t, Next(todo[1..], owner))
      ensures var session := old(sessions)[id];
              sessions == old(sessions)[id :=
                  Session(true, Finished, if session.ended.Some? then session.ended else Some(Deliberate))]
      ensures table == old(table) - {id}
    {
      hide Running;
      MarkClosing(t, todo, id, owner);
      EndSession(t, todo, id, owner);
      RemoveSession(t, todo, id, owner);
      FinishOnce(t, todo, id, owner);
    }

    method MarkClosing(ghost t: Thread, ghost todo: seq<Id>, id: Id, ghost owner: bool)
      requires Free(t)
      requires todo != [] && todo[0] == id && id in sessions
      requires Running(t, Shutting(todo, owner))
      modifies this`sessions, this`states, this`steps
      ensures old(states) <= states && old(steps) <= steps && Running(t, Ending(todo, owner))
      ensures sessions == old(sessions)[id := old(sessions)[id].(closing := true)]
    {
      hide Connecting, ClosingTransport, Working, WorkersWait;
      sessions := sessions[id := sessions[id].(closing := true)];
      Move(t, true, []);
    }

    method EndSession(ghost t: Thread, ghost todo: seq<Id>, id: Id, ghost owner: bool)
      requires Free(t)
      requires todo != [] && todo[0] == id && id in sessions
      requires Running(t, Ending(todo, owner))
      modifies this`sessions, this`states, this`steps
      ensures old(states) <= states && old(steps) <= steps && Running(t, Removing(todo, owner))
      ensures var session := old(sessions)[id];
              sessions == old(sessions)[id :=
                  session.(ended := if session.ended.Some? then session.ended else Some(Deliberate))]
    {
      hide Connecting, ClosingTransport, Working, WorkersWait;
      if sessions[id].ended.None? { sessions := sessions[id := sessions[id].(ended := Some(Deliberate))]; }
      Move(t, true, []);
    }

    method RemoveSession(ghost t: Thread, ghost todo: seq<Id>, id: Id, ghost owner: bool)
      requires Free(t)
      requires todo != [] && todo[0] == id && id in sessions
      requires Running(t, Removing(todo, owner))
      modifies this`table, this`states, this`steps
      ensures old(states) <= states && old(steps) <= steps && Running(t, OnceFinish(todo, owner))
      ensures table == old(table) - {id}
    {
      hide Connecting, ClosingTransport, Working, WorkersWait;
      table := table - {id};
      Move(t, true, []);
    }

    method FinishOnce(ghost t: Thread, ghost todo: seq<Id>, id: Id, ghost owner: bool)
      requires Free(t)
      requires todo != [] && todo[0] == id && id in sessions
      requires Running(t, OnceFinish(todo, owner))
      modifies this`sessions, this`states, this`steps
      ensures old(states) <= states && old(steps) <= steps && Running(t, Next(todo[1..], owner))
      ensures sessions == old(sessions)[id := old(sessions)[id].(once := Finished)]
    {
      hide Connecting, ClosingTransport, Working, WorkersWait;
      sessions := sessions[id := sessions[id].(once := Finished)];
      Move(t, true, []);
    }

    ghost method BeginClose(n: nat, id: Id)
      requires Mirrors() && Caller(n) !in Now().threads && id in sessions
      modifies this`states, this`steps
      ensures old(states) <= states && old(steps) <= steps && Running(Caller(n), StoreClosing([id], true, false))
    {
      Take(CallCloseSession(n, id));
    }

    /** `Close` of one connection: the session is shut and out of the table. */
    method CloseConnection(ghost n: nat, id: Id)
      requires Valid() && Caller(n) !in Now().threads && id in sessions
      modifies this
      ensures Valid() && old(states) <= states && old(steps) <= steps && Running(Caller(n), Returned(None))
      ensures sessions == old(sessions)[id := Shut(old(sessions)[id], true)] && id !in table
                && table == old(table) - {id}
      ensures workers == old(workers)
      ensures canceled == old(canceled) && closed == old(closed) && closing == old(closing) && nextId == old(nextId)
                && failure == old(failure)
    {
      Facts();
      hide Run;
      BeginClose(n, id);
      CloseOne(Caller(n), [id], id, true, false);
    }

    /** The worker of a session that has ended: reports the end if nobody had closed the session
        or canceled the transport, and then closes the session itself. */
    method RunWorker(id: Id)
      requires Valid() && id in workers && sessions[id].ended.Some?
      modifies this
      ensures Valid() && old(states) <= states && old(steps) <= steps && Running(Worker(id), Returned(None))
      ensures workers == old(workers) - {id}
      ensures sessions == old(sessions)[id := Shut(old(sessions)[id], false)] && id !in table
                && table == old(table) - {id}
      ensures failure == if old(failure).None? && !old(sessions)[id].closing && !old(canceled) then Some(id)
                else old(failure)
      ensures canceled == old(canceled) && closed == old(closed) && closing == old(closing) && nextId == old(nextId)
    {
      Facts();
      hide Running, Run, WorkersWait;
      DetachWorker(id);
      Report(id);
      CloseOne(Worker(id), [id], id, false, false);
    }

    method DetachWorker(id: Id)
      requires Mirrors() && id in workers
      modifies this`workers
      ensures workers == old(workers) - {id} && Running(Worker(id), WorkerWait(id))
    {
      workers := workers - {id};
    }

    method Report(id: Id)
      requires id in sessions && id !in workers && sessions[id].ended.Some?
      requires Running(Worker(id), WorkerWait(id))
      modifies this`failure, this`states, this`steps
      ensures old(states) <= states && old(steps) <= steps && Running(Worker(id), StoreClosing([id], false, false))
      ensures failure == if old(failure).None? && !sessions[id].closing && !canceled then Some(id) else old(failure)
    {
      hide Running;
      var unexpected := LookAtEnd(id);
      if unexpected { SendReport(id); }
    }

    method LookAtEnd(id: Id) returns (unexpected: bool)
      requires id in sessions && id !in workers && sessions[id].ended.Some?
      requires Running(Worker(id), WorkerWait(id))
      modifies this`states, this`steps
      ensures old(states) <= states && old(steps) <= steps
      ensures unexpected == (!sessions[id].closing && !canceled)
      ensures Running(Worker(id), if unexpected then WorkerReport(id) else StoreClosing([id], false, false))
    {
      hide Connecting, ClosingTransport, ClosingSession, WorkersWait;
      Move(Worker(id), true, []);
      Move(Worker(id), true, []);
      unexpected := !sessions[id].closing && !canceled;
    }

    method SendReport(id: Id)
      requires id !in workers && id in sessions && Running(Worker(id), WorkerReport(id))
      modifies this`failure, this`states, this`steps
      ensures old(states) <= states && old(steps) <= steps && Running(Worker(id), StoreClosing([id], false, false))
      ensures failure == if old(failure).None? then Some(id) else old(failure)
    {
      hide Connecting, ClosingTransport, ClosingSession, WorkersWait;
      Move(Worker(id), failure.None?, []);
      if failure.None? { failure := Some(id); }
    }

    /** Enters the once of the transport, unless its body has finished. */
    method EnterClose(ghost n: nat)
      requires Mirrors() && !closing.Running? && Caller(n) !in Now().threads
      modifies this`closing, this`states, this`steps
      ensures old(states) <= states && old(steps) <= steps
      ensures closing == if old(closing).Finished? then Finished else Once.Running
      ensures Running(Caller(n), if closing.Finished? then Returned(None) else CloseMark)
    {
      hide Advance, WorkersWait;
      BeginTransportClose(n);
      BeginOnce(n);
      if !closing.Finished? { closing := Once.Running; }
    }

    ghost method BeginOnce(n: nat)
      requires Running(Caller(n), CloseBegin) && !closing.Running?
      modifies this`states, this`steps
      ensures old(states) <= states && old(steps) <= steps && Run(states, steps) && WorkersWait(workers, Now().threads)
      ensures Now() == if closing.Finished? then old(Now()).At(Caller(n), Returned(None))
                       else old(Now()).At(Caller(n), CloseMark).(closing := Once.Running)
    {
      hide Connecting, ClosingSession, Working, WorkersWait;
      Move(Caller(n), true, []);
    }

    ghost method BeginTransportClose(n: nat)
      requires Mirrors() && Caller(n) !in Now().threads
      modifies this`states, this`steps
      ensures old(states) <= states && old(steps) <= steps && Running(Caller(n), CloseBegin)
    {
      Take(CallClose(n));
    }

    /** Marks the transport closed, lists its sessions in some order, and cancels its context. */
    method MarkClosed(ghost n: nat) returns (order: seq<Id>)
      requires Running(Caller(n), CloseMark)
      modifies this`closed, this`canceled, this`states, this`steps
      ensures old(states) <= states && old(steps) <= steps && Running(Caller(n), Next(order, true))
      ensures closed && canceled && Elements(order) == table && Distinct(order)
    {
      hide Running;
      order := List();
      SetClosed(n, order);
      CancelContext(n, order);
    }

    method SetClosed(ghost n: nat, ghost order: seq<Id>)
      requires Running(Caller(n), CloseMark) && Elements(order) == table
      modifies this`closed, this`states, this`steps
      ensures old(states) <= states && old(steps) <= steps && Running(Caller(n), CloseCancel(order)) && closed
    {
      hide Connecting, ClosingSession, Working, WorkersWait;
      closed := true;
      Move(Caller(n), true, order);
    }

    method CancelContext(ghost n: nat, ghost order: seq<Id>)
      requires Running(Caller(n), CloseCancel(order))
      modifies this`canceled, this`states, this`steps
      ensures old(states) <= states && old(steps) <= steps && Running(Caller(n), Next(order, true)) && canceled
    {
      hide Connecting, ClosingSession, Working, WorkersWait;
      canceled := true;
      Move(Caller(n), true, []);
    }

    method List() returns (order: seq<Id>)
      ensures Elements(order) == table && Distinct(order)
    {
      order := [];
      var pending := table;
      while pending != {}
        invariant pending <= table && Elements(order) == table - pending && Distinct(order)
        decreases |pending|
      {
        var id :| id in pending;
        assert Elements(order + [id]) == Elements(order) + {id};
        assert id !in Elements(order);
        order := order + [id];
        pending := pending - {id};
      }
    }

    method CloseListed(ghost n: nat, order: seq<Id>)
      requires Distinct(order) && forall id :: id in order ==> id in sessions && sessions[id].once.Fresh?
      requires Running(Caller(n), Next(order, true))
      modifies this`table, this`sessions, this`states, this`steps
      ensures old(states) <= states && old(steps) <= steps && Running(Caller(n), CloseFinish)
      ensures sessions.Keys == old(sessions).Keys && table == old(table) - Elements(order)
      ensures forall id :: id in sessions ==>
                sessions[id] == if id in order then Shut(old(sessions)[id], true) else old(sessions)[id]
    {
      hide Running;
      assert order[0..] == order;
      for k := 0 to |order|
        invariant old(states) <= states && old(steps) <= steps && Running(Caller(n), Next(order[k..], true))
        invariant sessions.Keys == old(sessions).Keys && table == old(table) - Elements(order[..k])
        invariant forall id :: id in sessions ==>
                    sessions[id] == if id in order[..k] then Shut(old(sessions)[id], true) else old(sessions)[id]
      {
        assert order[k] in order && order[k] !in order[..k];
        assert order[..k + 1] == order[..k] + [order[k]];
        assert order[k..][1..] == order[k + 1..];
        CloseOne(Caller(n), order[k..], order[k], true, true);
      }
      assert order[..|order|] == order;
    }

    method LeaveClose(ghost n: nat)
      requires Running(Caller(n), CloseFinish)
      modifies this`closing, this`states, this`steps
      ensures old(states) <= states && old(steps) <= steps && Running(Caller(n), Returned(None)) && closing.Finished?
    {
      hide Connecting, ClosingSession, Working, WorkersWait;
      closing := Finished;
      Move(Caller(n), true, []);
    }

    /** `Close` of the transport. */
    method Close(ghost n: nat)
      requires Valid() && Caller(n) !in Now().threads
      modifies this
      ensures Valid() && old(states) <= states && old(steps) <= steps && Running(Caller(n), Returned(None))
      ensures closing.Finished? && closed && table == {} && nextId == old(nextId) && failure == old(failure)
      ensures canceled
      ensures workers == old(workers)
      ensures sessions.Keys == old(sessions).Keys
      ensures forall id :: id in sessions ==>
                sessions[id] == if id in old(table) then Shut(old(sessions)[id], true) else old(sessions)[id]
    {
      hide Running, Run, WorkersWait;
      Facts();
      EnterClose(n);
      if closing.Finished? {
        RunningMirrors(Caller(n), Returned(None));
        return;
      }
      var order := MarkClosed(n);
      CloseListed(n, order);
      LeaveClose(n);
      RunningMirrors(Caller(n), Returned(None));
    }

    /** The session ends: by itself, or because the transport was canceled. */
    method EndByItself(id: Id)
      requires Valid() && id in sessions && sessions[id].ended.None?
      modifies this`sessions, this`states, this`steps
      ensures Valid() && old(states) <= states && old(steps) <= steps
      ensures sessions == old(sessions)[
                id := old(sessions)[id].(ended := Some(if canceled then ContextCanceled else Unexpected))]
    {
      Take(SessionEnds(id));
      sessions := sessions[id := sessions[id].(ended := Some(if canceled then ContextCanceled else Unexpected))];
    }

    /** Any script of calls, session ends and workers: once the transport has been closed no
        connect succeeds any more and no session is left; and what is reported is a session that
        ended by itself and whose worker ran before the transport was closed. Something that
        does not apply - an unknown session, a worker that has run - does nothing. */
    method PerformAll(script: seq<TransportCall>) returns (ids: seq<Option<Id>>)
      requires Valid()
      modifies this
      ensures Valid() && old(states) <= states && |ids| == |script|
      ensures forall i, j :: 0 <= i < j < |script| && script[i].CloseCall? ==> ids[j].None?
      ensures CloseCall in script ==> closed && closing.Finished? && table == {}
      ensures failure.Some? && old(failure).None? ==>
                && failure.value in sessions && sessions[failure.value].ended == Some(Unexpected)
                && (EndedUnclosed(old(sessions), failure.value) || Reported(script, failure.value))
    {
      ids := [];
      for k := 0 to |script|
        invariant Valid() && old(states) <= states && |ids| == k
        invariant CloseCall in script[..k] ==> closed && canceled && closing.Finished?
        invariant forall i, j :: 0 <= i < j < k && script[i].CloseCall? ==> ids[j].None?
        invariant forall x :: EndedUnclosed(sessions, x) ==>
                    EndedUnclosed(old(sessions), x) || SessionEndCall(x) in script[..k]
        invariant failure == old(failure) || failure.Some?
        invariant failure != old(failure) ==>
                    EndedUnclosed(old(sessions), failure.value) || Reported(script[..k], failure.value)
      {
        hide Run, Running, EndedUnclosed, Reported;
        ghost var n, before := Unused(Now().threads), failure;
        var id := Perform(n, script[k]);
        assert forall i :: 0 <= i < k && script[i].CloseCall? ==> script[i] in script[..k];
        ids := ids + [id];
        assert script[..k + 1] == script[..k] + [script[k]];
        if failure != before && SessionEndCall(failure.value) in script[..k] {
          NowReported(script[..k], failure.value);
        } else if failure.Some? {
          StaysReported(script[..k], script[k], failure.value);
        }
      }
      assert script[..|script|] == script;
      Facts();
      if failure.Some? { ReportedEndWasUnexpected(); }
    }

    method Perform(ghost n: nat, call: TransportCall) returns (id: Option<Id>)
      requires Valid() && Caller(n) !in Now().threads
      modifies this
      ensures Valid() && old(states) <= states && old(steps) <= steps
      ensures old(closed) ==> closed && id.None?
      ensures old(canceled) ==> canceled
      ensures old(closing).Finished? || call.CloseCall? ==> closing.Finished?
      ensures call.CloseCall? ==> closed && canceled && id.None?
      ensures forall x :: EndedUnclosed(sessions, x) ==> EndedUnclosed(old(sessions), x) || call == SessionEndCall(x)
      ensures failure != old(failure) ==>
                && failure.Some? && call == WorkerCall(failure.value)
                && !old(canceled) && EndedUnclosed(old(sessions), failure.value)
    {
      hide Run, Running;
      id := None;
      match call {
        case ConnectCall(ok) => id := Connect(n, ok);
        case CloseConnectionCall(session) => if session in sessions { CloseConnection(n, session); }
        case CloseCall => Close(n);
        case SessionEndCall(session) =>
          if session in sessions && sessions[session].ended.None? { EndByItself(session); }
        case WorkerCall(session) =>
          if session in workers && sessions[session].ended.Some? { RunWorker(session); }
      }
    }
  }

  lemma NowReported(script: seq<TransportCall>, id: Id)
    requires SessionEndCall(id) in script && CloseCall !in script
    ensures Reported(script + [WorkerCall(id)], id)
  {
    var whole := script + [WorkerCall(id)];
    var k :| 0 <= k < |script| && script[k] == SessionEndCall(id);
    assert whole[..|script|] == script;
    assert EndThenWorker(whole, k, |script|, id);
  }

  lemma StaysReported(script: seq<TransportCall>, call: TransportCall, id: Id)
    ensures Reported(script, id) ==> Reported(script + [call], id)
  {
    if Reported(script, id) {
      var k, m :| 0 <= k < m < |script| && EndThenWorker(script, k, m, id);
      assert (script + [call])[..m] == script[..m];
      assert EndThenWorker(script + [call], k, m, id);
    }
  }

  /** A caller that has not called anything. */
  ghost function Unused(threads: map<Thread, Pc>): (n: nat)
    ensures Caller(n) !in threads
  {
    var numbers := set t | t in threads.Keys && t.Caller? :: t.number;
    var n := Above(numbers);
    assert forall t :: t in threads.Keys && t.Caller? ==> t.number in numbers;
    n
  }

  /** A session that has been shut is closing and its once has finished; how it ended stays what it
      was, and if it had not ended then it ended deliberately. */
  lemma ShutExactly(session: Session, intentional: bool)
    ensures var shut := Shut(session, intentional);
            && shut.once == Finished
            && (shut.closing <==> session.closing || intentional || session.once != Finished)
            && (session.ended.Some? || session.once == Finished ==> shut.ended == session.ended)
            && (session.ended.None? && session.once != Finished ==> shut.ended == Some(Deliberate))
  {
  }
}
