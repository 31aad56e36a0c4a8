/** The generation manager: one transport after another, and the reconnect loop around them. */
module Generation {
  import opened Common
  import T = Transport

  /** Where the manager is. `Canceled` is after the generation context was canceled and the
      tunnel client was stopped, `Closing` while its own call of `Close` runs, `Waiting` while
      it waits for the workers of the transport. */
  datatype Phase = Building | Serving | Canceled | Closing(call: nat) | Waiting | Halted

  datatype State = State(transports: seq<T.State>, phase: Phase)

  const INITIAL := State([], Building)

  datatype Step =
    | Build
    | Cancel
    | CallClose(call: nat)
    | CloseReturned
    | Waited(again: bool)
    | GiveUp
    | Inside(generation: nat, step: T.Step)

  function Last(s: State): nat
    requires s.transports != []
  {
    |s.transports| - 1
  }

  /** Every worker and the watcher have ended. */
  ghost predicate WorkersDone(t: T.State) {
    forall w :: w in t.threads && !w.Caller? ==> t.threads[w].Returned?
  }

  ghost predicate Enabled(s: State, step: Step) {
    match step
    case Build => s.phase.Building?
    case Cancel => s.phase.Serving? && s.transports != []
    case CallClose(n) => s.phase.Canceled? && s.transports != [] && T.Caller(n) !in s.transports[Last(s)].threads
    case CloseReturned =>
      && s.phase.Closing? && s.transports != []
      && var t := s.transports[Last(s)];
         T.Caller(s.phase.call) in t.threads && t.threads[T.Caller(s.phase.call)].Returned?
    case Waited(_) => s.phase.Waiting? && s.transports != [] && WorkersDone(s.transports[Last(s)])
    case GiveUp => s.phase.Waiting?
    case Inside(i, step) => i < |s.transports| && T.Enabled(s.transports[i], step)
  }

  ghost function Apply(s: State, step: Step): State
    requires Enabled(s, step)
  {
    match step
    case Build => State(s.transports + [T.INITIAL], Serving)
    case Cancel => State(s.transports[Last(s) := s.transports[Last(s)].(canceled := true)], Canceled)
    case CallClose(n) =>
      State(s.transports[Last(s) := s.transports[Last(s)].At(T.Caller(n), T.CloseBegin)], Closing(n))
    case CloseReturned => s.(phase := Waiting)
    case Waited(again) => s.(phase := if s.transports[Last(s)].table == {} && again then Building else Halted)
    case GiveUp => s.(phase := Halted)
    case Inside(i, step) => s.(transports := s.transports[i := T.Apply(s.transports[i], step)])
  }

  /** A transport that can do no more: closed for good, no session, no worker. */
  ghost predicate Sealed(t: T.State) {
    T.Inv(t) && t.closing.Finished? && t.closed && t.table == {} && WorkersDone(t)
  }

  lemma SealedStep(t: T.State, step: T.Step)
    requires Sealed(t) && T.Enabled(t, step)
    ensures Sealed(T.Apply(t, step))
  {
    T.InvStep(t, step);
    var after := T.Apply(t, step);
    forall w | w in after.threads && !w.Caller? ensures after.threads[w].Returned? {
      if step.Work? { SealedWork(t, step.thread, step.choice, w); }
    }
  }

  lemma SealedWork(t: T.State, worker: T.Thread, choice: T.Choice, w: T.Thread)
    requires t.closed && WorkersDone(t) && worker in t.threads && T.Ready(t, t.threads[worker], choice)
    requires w in T.Advance(t, worker, choice).threads && !w.Caller?
    ensures T.Advance(t, worker, choice).threads[w].Returned?
  {
    assert worker.Caller?;
    match t.threads[worker]
    case Entering =>
    case _ =>
  }

  ghost predicate Inv(s: State) {
    && (forall i :: 0 <= i < |s.transports| ==> T.Inv(s.transports[i]))
    && (forall i :: 0 <= i < |s.transports| - 1 ==> Sealed(s.transports[i]))
    && (s.phase.Building? ==> forall i :: 0 <= i < |s.transports| ==> Sealed(s.transports[i]))
    && (!s.phase.Building? ==> s.transports != [])
    && (s.phase.Closing? ==> var t := s.transports[Last(s)];
          T.Caller(s.phase.call) in t.threads && T.InClose(t, t.threads[T.Caller(s.phase.call)]))
    && (s.phase.Waiting? ==> s.transports[Last(s)].closing.Finished?)
  }

  lemma CloseCallKeeps(t: T.State, n: nat)
    requires T.Inv(t) && T.Caller(n) !in t.threads
    ensures T.Inv(t.At(T.Caller(n), T.CloseBegin))
  {
    var after := t.At(T.Caller(n), T.CloseBegin);
    assert after == T.Apply(t, T.CallClose(n));
    T.InvStep(t, T.CallClose(n));
  }

  lemma CancelKeeps(t: T.State)
    requires T.Inv(t)
    ensures T.Inv(t.(canceled := true))
  {
    assert t.(canceled := true) == T.Apply(t, T.CancelParent);
    T.InvStep(t, T.CancelParent);
  }

  lemma InsideKeeps(s: State, i: nat, step: T.Step)
    requires Inv(s) && Enabled(s, Inside(i, step))
    ensures Inv(Apply(s, Inside(i, step)))
  {
    var t := s.transports[i];
    T.InvStep(t, step);
    if Sealed(t) { SealedStep(t, step); }
    if s.phase.Closing? && i == Last(s) { T.InCloseStep(t, step, T.Caller(s.phase.call)); }
  }

  lemma InitialInv()
    ensures T.Inv(T.INITIAL)
  {
  }

  lemma InvStep(s: State, step: Step)
    requires Inv(s) && Enabled(s, step)
    ensures Inv(Apply(s, step))
  {
    match step
    case Build => InitialInv();
    case Cancel => CancelKeeps(s.transports[Last(s)]);
    case CallClose(n) => CloseCallKeeps(s.transports[Last(s)], n);
    case Inside(i, step) => InsideKeeps(s, i, step);
    case _ =>
  }

  ghost predicate Run(states: seq<State>, steps: seq<Step>) {
    && |states| == |steps| + 1 && states[0] == INITIAL
    && (forall i :: 0 <= i < |steps| ==> Enabled(states[i], steps[i]) && states[i + 1] == Apply(states[i], steps[i]))
  }

  lemma {:induction false} RunInv(states: seq<State>, steps: seq<Step>, i: nat)
    requires Run(states, steps) && i < |states|
    ensures Inv(states[i])
  {
    if i > 0 {
      RunInv(states, steps, i - 1);
      InvStep(states[i - 1], steps[i - 1]);
    }
  }

  /** Generations never overlap: at every moment, whatever late connects, closes and session
      ends are still under way, every transport but the newest is closed for good, has no
      session and no worker; and a new one is built only when that is true of all of them. */
  lemma GenerationsNeverOverlap(states: seq<State>, steps: seq<Step>, i: nat, g: nat)
    requires Run(states, steps) && i < |states|
    requires g < |states[i].transports| && (g + 1 < |states[i].transports| || (i < |steps| && steps[i].Build?))
    ensures Sealed(states[i].transports[g])
  {
    RunInv(states, steps, i);
  }

  // ----- one generation after another -----

  lemma Extend(states: seq<State>, steps: seq<Step>, step: Step) returns (more: seq<State>, done: seq<Step>)
    requires Run(states, steps) && Enabled(states[|states| - 1], step)
    ensures Run(more, done) && |more| > 0 && more[|more| - 1] == Apply(states[|states| - 1], step)
  {
    more, done := states + [Apply(states[|states| - 1], step)], steps + [step];
  }

  /** The manager's own call of `Close`, on a transport whose context was canceled. */
  const CLOSER := T.Caller(0)
  const GO := T.Choice(true, [])
  /** The first transport while its watcher waits and the manager's call is at `pc`. */
  function Closing0(closed: bool, closing: T.Once, pc: T.Pc): State {
    State([T.State(true, closed, 0, {}, map[], closing, map[T.Watcher := T.Watching, CLOSER := pc], [])], Closing(0))
  }

  lemma FirstClosing() returns (states: seq<State>, steps: seq<Step>)
    ensures Run(states, steps) && |states| > 0
    ensures states[|states| - 1] == Closing0(false, T.Fresh, T.CloseBegin)
  {
    states, steps := [INITIAL], [];
    hide Run;
    states, steps := Extend(states, steps, Build);
    states, steps := Extend(states, steps, Cancel);
    states, steps := Extend(states, steps, CallClose(0));
    assert T.INITIAL.threads[CLOSER := T.CloseBegin] == map[T.Watcher := T.Watching, CLOSER := T.CloseBegin];
  }

  /** One step of the manager's call. */
  lemma CloserStep(closed: bool, closing: T.Once, pc: T.Pc)
    requires (pc.CloseBegin? && !closing.Running?) || pc.CloseMark? || pc == T.CloseCancel([]) || pc.CloseFinish?
    ensures var s, step := Closing0(closed, closing, pc), Inside(0, T.Work(CLOSER, GO));
            Enabled(s, step) && Apply(s, step) ==
            match pc
            case CloseMark => Closing0(true, closing, T.CloseCancel([]))
            case CloseCancel(_) => Closing0(closed, closing, T.CloseFinish)
            case CloseFinish => Closing0(closed, T.Finished, T.Returned(None))
            case _ =>
              if closing.Finished? then Closing0(closed, closing, T.Returned(None))
              else Closing0(closed, T.Running, T.CloseMark)
  {
    var s := Closing0(closed, closing, pc);
    var t := T.Advance(s.transports[0], CLOSER, GO);
    assert t.threads == map[T.Watcher := T.Watching, CLOSER := t.threads[CLOSER]];
    assert s.transports[0 := t] == [t];
  }

  lemma FirstClosed() returns (states: seq<State>, steps: seq<Step>)
    ensures Run(states, steps) && |states| > 0
    ensures states[|states| - 1] == Closing0(true, T.Finished, T.Returned(None))
  {
    states, steps := FirstClosing();
    hide Run, Closing0, Apply, Enabled;
    CloserStep(false, T.Fresh, T.CloseBegin);
    states, steps := Extend(states, steps, Inside(0, T.Work(CLOSER, GO)));
    CloserStep(false, T.Running, T.CloseMark);
    states, steps := Extend(states, steps, Inside(0, T.Work(CLOSER, GO)));
    CloserStep(true, T.Running, T.CloseCancel([]));
    states, steps := Extend(states, steps, Inside(0, T.Work(CLOSER, GO)));
    CloserStep(true, T.Running, T.CloseFinish);
    states, steps := Extend(states, steps, Inside(0, T.Work(CLOSER, GO)));
  }

  /** A generation that is cleaned up is followed by another one. */
  lemma SecondGeneration() returns (states: seq<State>, steps: seq<Step>)
    ensures Run(states, steps) && |states| > 0 && |states[|states| - 1].transports| == 2
    ensures states[|states| - 1].phase == Serving && states[|states| - 1].transports[1] == T.INITIAL
  {
    hide Run;
    states, steps := FirstClosed();
    states, steps := Extend(states, steps, CloseReturned);
    states, steps := Extend(states, steps, Inside(0, T.Work(T.Watcher, GO)));
    states, steps := Extend(states, steps, Inside(0, T.Work(T.Watcher, GO)));
    states, steps := Extend(states, steps, Waited(true));
    states, steps := Extend(states, steps, Build);
  }
}
