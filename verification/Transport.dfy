/** The restartable transport: sessions are connected and closed by any number of goroutines
    at once, under one mutex, an atomic flag per session and two kinds of `sync.Once`. Every
    access to shared state is a step of its own, except that adding a session to the table
    and starting its worker are one step. */
module Transport {
  import opened Common

  type Id = nat

  datatype Once = Fresh | Running | Finished

  datatype Cause = Unexpected | Deliberate | ContextCanceled

  datatype Session = Session(closing: bool, once: Once, ended: Option<Cause>)

  datatype Thread = Caller(number: nat) | Watcher | Worker(id: Id)

  /** `todo` are the sessions a goroutine still closes, the current one first; `owner` marks
      the goroutine that runs the body of the transport's own once. */
  datatype Pc =
    | CheckContext
    | Opening
    | Entering
    | Watching
    | CloseBegin
    | CloseMark
    | CloseCancel(todo: seq<Id>)
    | CloseFinish
    | StoreClosing(todo: seq<Id>, intentional: bool, owner: bool)
    | OnceBegin(todo: seq<Id>, owner: bool)
    | Shutting(todo: seq<Id>, owner: bool)
    | Ending(todo: seq<Id>, owner: bool)
    | Removing(todo: seq<Id>, owner: bool)
    | OnceFinish(todo: seq<Id>, owner: bool)
    | WorkerWait(id: Id)
    | WorkerCheck(id: Id)
    | WorkerReport(id: Id)
    | Returned(connected: Option<Id>)

  datatype State = State(
    canceled: bool,
    closed: bool,
    nextId: nat,
    table: set<Id>,
    sessions: map<Id, Session>,
    closing: Once,
    threads: map<Thread, Pc>,
    failures: seq<Id>)
  {
    function At(t: Thread, pc: Pc): State {
      this.(threads := threads[t := pc])
    }

    function With(id: Id, session: Session): State {
      this.(sessions := sessions[id := session])
    }
  }

  const INITIAL := State(false, false, 0, {}, map[], Fresh, map[Watcher := Watching], [])

  /** What the environment decides: whether a call into the MCP library or a send on a channel
      succeeds, and the order in which a map is iterated. */
  datatype Choice = Choice(ok: bool, order: seq<Id>)

  datatype Step =
    | CallConnect(number: nat)
    | CallClose(number: nat)
    | CallCloseSession(number: nat, id: Id)
    | CancelParent
    | SessionEnds(id: Id)
    | Work(thread: Thread, choice: Choice)

  predicate Enabled(s: State, step: Step) {
    match step
    case CallConnect(n) => Caller(n) !in s.threads
    case CallClose(n) => Caller(n) !in s.threads
    case CallCloseSession(n, id) => Caller(n) !in s.threads && id in s.sessions
    case CancelParent => true
    case SessionEnds(id) => id in s.sessions && s.sessions[id].ended.None?
    case Work(t, choice) => t in s.threads && Ready(s, s.threads[t], choice)
  }

  /** A goroutine waits while another one runs the body of a once, until a session has ended,
      or until the context is canceled. */
  predicate Ready(s: State, pc: Pc, choice: Choice) {
    match pc
    case CloseMark => s.table == set id | id in choice.order
    case Returned(_) => false
    case Watching => s.canceled
    case CloseBegin => !s.closing.Running?
    case OnceBegin(todo, _) => todo != [] && todo[0] in s.sessions && !s.sessions[todo[0]].once.Running?
    case StoreClosing(todo, _, _) => todo != [] && todo[0] in s.sessions
    case Shutting(todo, _) => todo != [] && todo[0] in s.sessions
    case Ending(todo, _) => todo != [] && todo[0] in s.sessions
    case Removing(todo, _) => todo != [] && todo[0] in s.sessions
    case OnceFinish(todo, _) => todo != [] && todo[0] in s.sessions
    case WorkerWait(id) => id in s.sessions && s.sessions[id].ended.Some?
    case WorkerCheck(id) => id in s.sessions
    case _ => true
  }

  function Apply(s: State, step: Step): State
    requires Enabled(s, step)
  {
    match step
    case CallConnect(n) => s.At(Caller(n), CheckContext)
    case CallClose(n) => s.At(Caller(n), CloseBegin)
    case CallCloseSession(n, id) => s.At(Caller(n), StoreClosing([id], true, false))
    case CancelParent => s.(canceled := true)
    case SessionEnds(id) =>
      s.With(id, s.sessions[id].(ended := Some(if s.canceled then ContextCanceled else Unexpected)))
    case Work(t, choice) => Advance(s, t, choice)
  }

  function Next(todo: seq<Id>, owner: bool): Pc {
    if todo != [] then StoreClosing(todo, true, owner) else if owner then CloseFinish else Returned(None)
  }

  predicate OfConnecting(pc: Pc) {
    pc.CheckContext? || pc.Opening? || pc.Entering?
  }

  predicate OfTransport(pc: Pc) {
    pc.Watching? || pc.CloseBegin? || pc.CloseMark? || pc.CloseCancel? || pc.CloseFinish?
  }

  predicate OfClosing(pc: Pc) {
    pc.StoreClosing? || pc.OnceBegin? || pc.Shutting? || pc.Ending? || pc.Removing? || pc.OnceFinish?
  }

  predicate OfWorking(pc: Pc) {
    pc.WorkerWait? || pc.WorkerCheck? || pc.WorkerReport?
  }

  /** The transport after goroutine `t` has added session `id` and started its worker. */
  function Entered(s: State, t: Thread, id: Id): State {
    s.At(t, Returned(Some(id))).At(Worker(id), WorkerWait(id)).With(id, Session(false, Fresh, None)).(
      nextId := id, table := s.table + {id})
  }

  /** A step of `Connect`. */
  function Connecting(s: State, t: Thread, choice: Choice): (after: State)
    requires t in s.threads && Ready(s, s.threads[t], choice) && OfConnecting(s.threads[t])
    ensures t in after.threads
    ensures !s.threads[t].Entering? ==> after.threads == s.threads[t := after.threads[t]]
  {
    match s.threads[t]
    case CheckContext => s.At(t, if s.canceled then Returned(None) else Opening)
    case Opening => s.At(t, if choice.ok then Entering else Returned(None))
    case Entering =>
      if s.closed then s.At(t, Returned(None))
      else
        var id := s.nextId + 1;
        Entered(s, t, id)
  }

  /** A step of `Close`, or of the watcher that calls it. */
  function ClosingTransport(s: State, t: Thread, choice: Choice): (after: State)
    requires t in s.threads && Ready(s, s.threads[t], choice) && OfTransport(s.threads[t])
    ensures t in after.threads
    ensures after.threads == s.threads[t := after.threads[t]]
  {
    match s.threads[t]
    case Watching => s.At(t, CloseBegin)
    case CloseBegin =>
      if s.closing.Finished? then s.At(t, Returned(None)) else s.At(t, CloseMark).(closing := Running)
    case CloseMark => s.At(t, CloseCancel(choice.order)).(closed := true)
    case CloseCancel(todo) => s.At(t, Next(todo, true)).(canceled := true)
    case CloseFinish => s.At(t, Returned(None)).(closing := Finished)
  }

  /** A step of closing one session. */
  function ClosingSession(s: State, t: Thread, choice: Choice): (after: State)
    requires t in s.threads && Ready(s, s.threads[t], choice) && OfClosing(s.threads[t])
    ensures t in after.threads
    ensures after.threads == s.threads[t := after.threads[t]]
  {
    match s.threads[t]
    case StoreClosing(todo, intentional, owner) =>
      var session := s.sessions[todo[0]];
      s.At(t, OnceBegin(todo, owner)).With(todo[0], session.(closing := session.closing || intentional))
    case OnceBegin(todo, owner) =>
      if s.sessions[todo[0]].once.Finished? then s.At(t, Next(todo[1..], owner))
      else s.At(t, Shutting(todo, owner)).With(todo[0], s.sessions[todo[0]].(once := Running))
    case Shutting(todo, owner) => s.At(t, Ending(todo, owner)).With(todo[0], s.sessions[todo[0]].(closing := true))
    case Ending(todo, owner) =>
      var session := s.sessions[todo[0]];
      var ended := if session.ended.Some? then session.ended else Some(Deliberate);
      s.At(t, Removing(todo, owner)).With(todo[0], session.(ended := ended))
    case Removing(todo, owner) => s.At(t, OnceFinish(todo, owner)).(table := s.table - {todo[0]})
    case OnceFinish(todo, owner) =>
      s.At(t, Next(todo[1..], owner)).With(todo[0], s.sessions[todo[0]].(once := Finished))
  }

  /** A step of the worker of a session, up to closing it. */
  function Working(s: State, t: Thread, choice: Choice): (after: State)
    requires t in s.threads && Ready(s, s.threads[t], choice) && OfWorking(s.threads[t])
    ensures t in after.threads
    ensures after.threads == s.threads[t := after.threads[t]]
  {
    match s.threads[t]
    case WorkerWait(id) => s.At(t, WorkerCheck(id))
    case WorkerCheck(id) =>
      s.At(t, if !s.sessions[id].closing && !s.canceled then WorkerReport(id) else StoreClosing([id], false, false))
    case WorkerReport(id) =>
      // The failure channel holds one error; a report that finds it full is dropped.
      s.At(t, StoreClosing([id], false, false)).(failures := if choice.ok then s.failures + [id] else s.failures)
  }

  function Advance(s: State, t: Thread, choice: Choice): (after: State)
    requires t in s.threads && Ready(s, s.threads[t], choice)
    ensures t in after.threads
    ensures !s.threads[t].Entering? ==> after.threads == s.threads[t := after.threads[t]]
  {
    if OfConnecting(s.threads[t]) then Connecting(s, t, choice)
    else if OfTransport(s.threads[t]) then ClosingTransport(s, t, choice)
    else if OfClosing(s.threads[t]) then ClosingSession(s, t, choice)
    else Working(s, t, choice)
  }

  // ----- invariants -----

  predicate Covers(todo: seq<Id>, table: set<Id>) {
    forall id :: id in table ==> id in todo
  }

  /** A list of sessions to close; the owner of the transport's once covers the whole table. */
  predicate Closing(s: State, todo: seq<Id>, owner: bool) {
    && todo != [] && (forall id :: id in todo ==> id in s.sessions)
    && (owner ==> s.closed && s.canceled && Covers(todo, s.table))
  }

  /** What is true of the shared state while some goroutine is at `pc`. */
  predicate Safe(s: State, pc: Pc) {
    match pc
    case CloseCancel(todo) => s.closed && Covers(todo, s.table) && forall id :: id in todo ==> id in s.sessions
    case CloseFinish => s.closed && s.canceled && s.table == {}
    case StoreClosing(todo, _, owner) => Closing(s, todo, owner)
    case OnceBegin(todo, owner) => Closing(s, todo, owner)
    case Shutting(todo, owner) => Closing(s, todo, owner)
    case Ending(todo, owner) => Closing(s, todo, owner) && s.sessions[todo[0]].closing
    case Removing(todo, owner) => Closing(s, todo, owner)
    case OnceFinish(todo, owner) => Closing(s, todo, owner) && todo[0] !in s.table
    case WorkerWait(id) => id in s.sessions
    case WorkerCheck(id) => id in s.sessions && s.sessions[id].ended.Some?
    case WorkerReport(id) => id in s.sessions && s.sessions[id].ended == Some(Unexpected)
    case _ => true
  }

  ghost predicate Shared(s: State) {
    && (forall id :: id in s.table ==> id in s.sessions)
    && (forall id :: id in s.sessions ==> id <= s.nextId)
    && (forall id :: id in s.sessions && s.sessions[id].once.Finished? ==> id !in s.table)
    && (forall id :: id in s.sessions && s.sessions[id].ended == Some(Deliberate) ==> s.sessions[id].closing)
    && (forall id :: id in s.sessions && s.sessions[id].ended == Some(ContextCanceled) ==> s.canceled)
    && (s.closing.Finished? ==> s.closed && s.canceled && s.table == {})
    && (forall id :: id in s.failures ==> id in s.sessions && s.sessions[id].ended == Some(Unexpected))
  }

  ghost predicate Inv(s: State) {
    Shared(s) && forall t :: t in s.threads ==> Safe(s, s.threads[t])
  }

  /** The ways in which the shared state can only go forward. */
  ghost predicate Later(s: State, t: State) {
    && (s.closed ==> t.closed) && (s.canceled ==> t.canceled) && (s.closing.Finished? ==> t.closing.Finished?)
    && (s.closed ==> t.table <= s.table)
    && (forall id :: id in s.sessions ==> id in t.sessions && (id !in s.table ==> id !in t.table))
    && (forall id :: id in s.sessions && s.sessions[id].closing ==> t.sessions[id].closing)
    && (forall id :: id in s.sessions && s.sessions[id].ended.Some? ==> t.sessions[id].ended == s.sessions[id].ended)
  }

  lemma SafeLater(s: State, t: State, pc: Pc)
    requires Later(s, t) && Safe(s, pc)
    ensures Safe(t, pc)
  {
  }

  lemma NextSafe(s: State, todo: seq<Id>, owner: bool)
    requires Closing(s, todo, owner) && todo[0] !in s.table
    ensures Safe(s, Next(todo[1..], owner))
  {
    assert forall id :: id in todo[1..] ==> id in todo;
    assert forall id :: id in todo && id != todo[0] ==> id in todo[1..];
  }

  lemma SharedMoves(s: State, t: Thread, pc: Pc)
    requires Shared(s)
    ensures Shared(s.At(t, pc)) && Later(s, s.At(t, pc))
  {
  }

  /** What a step may do to one session. */
  predicate Updates(s: State, id: Id, session: Session) {
    && id in s.sessions
    && (s.sessions[id].closing ==> session.closing)
    && (session.ended == s.sessions[id].ended
        || (s.sessions[id].ended.None? && session.ended == Some(Deliberate) && session.closing))
    && (session.once == s.sessions[id].once || !session.once.Finished? || id !in s.table)
  }

  lemma SharedUpdates(s: State, t: Thread, pc: Pc, id: Id, session: Session)
    requires Shared(s) && Updates(s, id, session)
    ensures Shared(s.At(t, pc).With(id, session)) && Later(s, s.At(t, pc).With(id, session))
  {
  }

  lemma SharedEnters(s: State, t: Thread)
    requires Shared(s) && !s.closed
    ensures var id := s.nextId + 1;
            Shared(Entered(s, t, id)) && Later(s, Entered(s, t, id))
  {
  }

  lemma ConnectingStep(s: State, t: Thread, choice: Choice)
    requires Inv(s) && t in s.threads && Ready(s, s.threads[t], choice) && OfConnecting(s.threads[t])
    ensures Shared(Connecting(s, t, choice)) && Later(s, Connecting(s, t, choice))
    ensures Safe(Connecting(s, t, choice), Connecting(s, t, choice).threads[t])
  {
    hide Shared, Later;
    if s.threads[t].Entering? && !s.closed {
      SharedEnters(s, t);
    } else {
      SharedMoves(s, t, Connecting(s, t, choice).threads[t]);
    }
  }

  lemma OwnerStep(s: State, t: Thread, choice: Choice)
    requires Inv(s) && t in s.threads && Ready(s, s.threads[t], choice) && OfTransport(s.threads[t])
    ensures Shared(ClosingTransport(s, t, choice)) && Later(s, ClosingTransport(s, t, choice))
    ensures Safe(ClosingTransport(s, t, choice), ClosingTransport(s, t, choice).threads[t])
  {
    assert Safe(s, s.threads[t]);
  }

  lemma BeginningStep(s: State, t: Thread, choice: Choice)
    requires Inv(s) && t in s.threads && Ready(s, s.threads[t], choice)
    requires s.threads[t].StoreClosing? || s.threads[t].OnceBegin?
    ensures Shared(ClosingSession(s, t, choice)) && Later(s, ClosingSession(s, t, choice))
    ensures Safe(ClosingSession(s, t, choice), ClosingSession(s, t, choice).threads[t])
  {
    hide Later;
    assert Safe(s, s.threads[t]);
    var after, id, owner := ClosingSession(s, t, choice), s.threads[t].todo[0], s.threads[t].owner;
    if s.threads[t].OnceBegin? && s.sessions[id].once.Finished? {
      NextSafe(s, s.threads[t].todo, owner);
      SharedMoves(s, t, Next(s.threads[t].todo[1..], owner));
    } else {
      SharedUpdates(s, t, after.threads[t], id, after.sessions[id]);
    }
  }

  lemma EndingStep(s: State, t: Thread, choice: Choice)
    requires Inv(s) && t in s.threads && Ready(s, s.threads[t], choice)
    requires s.threads[t].Shutting? || s.threads[t].Ending?
    ensures Shared(ClosingSession(s, t, choice)) && Later(s, ClosingSession(s, t, choice))
    ensures Safe(ClosingSession(s, t, choice), ClosingSession(s, t, choice).threads[t])
  {
    hide Shared, Later;
    assert Safe(s, s.threads[t]);
    var after, id := ClosingSession(s, t, choice), s.threads[t].todo[0];
    SharedUpdates(s, t, after.threads[t], id, after.sessions[id]);
  }

  lemma RemovingStep(s: State, t: Thread, choice: Choice)
    requires Inv(s) && t in s.threads && Ready(s, s.threads[t], choice)
    requires s.threads[t].Removing?
    ensures Shared(ClosingSession(s, t, choice)) && Later(s, ClosingSession(s, t, choice))
    ensures Safe(ClosingSession(s, t, choice), ClosingSession(s, t, choice).threads[t])
  {
    assert Safe(s, s.threads[t]);
  }

  lemma FinishingStep(s: State, t: Thread, choice: Choice)
    requires Inv(s) && t in s.threads && Ready(s, s.threads[t], choice)
    requires s.threads[t].OnceFinish?
    ensures Shared(ClosingSession(s, t, choice)) && Later(s, ClosingSession(s, t, choice))
    ensures Safe(ClosingSession(s, t, choice), ClosingSession(s, t, choice).threads[t])
  {
    hide Shared, Later;
    assert Safe(s, s.threads[t]);
    var after, id := ClosingSession(s, t, choice), s.threads[t].todo[0];
    SharedUpdates(s, t, after.threads[t], id, after.sessions[id]);
    NextSafe(after, s.threads[t].todo, s.threads[t].owner);
  }

  lemma ClosingStep(s: State, t: Thread, choice: Choice)
    requires Inv(s) && t in s.threads && Ready(s, s.threads[t], choice) && OfClosing(s.threads[t])
    ensures Shared(ClosingSession(s, t, choice)) && Later(s, ClosingSession(s, t, choice))
    ensures Safe(ClosingSession(s, t, choice), ClosingSession(s, t, choice).threads[t])
  {
    hide Inv, Shared, Later, Safe, ClosingSession;
    if s.threads[t].Removing? { RemovingStep(s, t, choice); }
    else if s.threads[t].OnceFinish? { FinishingStep(s, t, choice); }
    else if s.threads[t].StoreClosing? || s.threads[t].OnceBegin? { BeginningStep(s, t, choice); }
    else { EndingStep(s, t, choice); }
  }

  /** A session that ended while nobody had closed it or canceled the context ended by itself. */
  lemma EndedByItself(s: State, id: Id)
    requires Shared(s) && id in s.sessions && s.sessions[id].ended.Some? && !s.sessions[id].closing && !s.canceled
    ensures s.sessions[id].ended == Some(Unexpected)
  {
    match s.sessions[id].ended.value { case Unexpected => case Deliberate => case ContextCanceled => }
  }

  lemma SharedReports(s: State, t: Thread, pc: Pc, id: Id, failures: seq<Id>)
    requires Shared(s) && id in s.sessions && s.sessions[id].ended == Some(Unexpected)
    requires failures == s.failures || failures == s.failures + [id]
    ensures Shared(s.At(t, pc).(failures := failures)) && Later(s, s.At(t, pc).(failures := failures))
  {
  }

  lemma WorkerStep(s: State, t: Thread, choice: Choice)
    requires Inv(s) && t in s.threads && Ready(s, s.threads[t], choice) && OfWorking(s.threads[t])
    ensures Shared(Working(s, t, choice)) && Later(s, Working(s, t, choice))
    ensures Safe(Working(s, t, choice), Working(s, t, choice).threads[t])
  {
    hide Shared, Later;
    assert Safe(s, s.threads[t]);
    var after, id := Working(s, t, choice), s.threads[t].id;
    if s.threads[t].WorkerReport? {
      SharedReports(s, t, after.threads[t], id, after.failures);
    } else {
      SharedMoves(s, t, after.threads[t]);
      if s.threads[t].WorkerCheck? && !s.sessions[id].closing && !s.canceled { EndedByItself(s, id); }
    }
  }

  lemma AdvanceStep(s: State, t: Thread, choice: Choice)
    requires Inv(s) && t in s.threads && Ready(s, s.threads[t], choice)
    ensures Shared(Advance(s, t, choice)) && Later(s, Advance(s, t, choice))
    ensures Safe(Advance(s, t, choice), Advance(s, t, choice).threads[t])
  {
    hide Inv, Shared, Later, Safe, Connecting, ClosingTransport, ClosingSession, Working;
    if OfConnecting(s.threads[t]) { ConnectingStep(s, t, choice); }
    else if OfTransport(s.threads[t]) { OwnerStep(s, t, choice); }
    else if OfClosing(s.threads[t]) { ClosingStep(s, t, choice); }
    else { WorkerStep(s, t, choice); }
  }

  lemma CallStep(s: State, step: Step)
    requires Inv(s) && Enabled(s, step) && !step.Work?
    ensures Shared(Apply(s, step)) && Later(s, Apply(s, step))
  {
  }

  lemma SafeAll(s: State, after: State)
    requires Inv(s) && Later(s, after)
    requires forall t :: t in after.threads && !(t in s.threads && after.threads[t] == s.threads[t]) ==>
              Safe(after, after.threads[t])
    ensures forall t :: t in after.threads ==> Safe(after, after.threads[t])
  {
    forall t | t in after.threads ensures Safe(after, after.threads[t]) {
      if t in s.threads && after.threads[t] == s.threads[t] { SafeLater(s, after, s.threads[t]); }
    }
  }

  lemma OthersKeep(s: State, t: Thread, choice: Choice, u: Thread)
    requires t in s.threads && Ready(s, s.threads[t], choice) && !s.threads[t].Entering?
    requires u in Advance(s, t, choice).threads && u != t
    ensures u in s.threads && Advance(s, t, choice).threads[u] == s.threads[u]
  {
    hide Advance;
  }

  lemma OthersStep(s: State, t: Thread, choice: Choice, u: Thread)
    requires t in s.threads && Ready(s, s.threads[t], choice) && u in Advance(s, t, choice).threads && u != t
    ensures (u in s.threads && Advance(s, t, choice).threads[u] == s.threads[u])
              || Safe(Advance(s, t, choice), Advance(s, t, choice).threads[u])
  {
    if !s.threads[t].Entering? {
      hide Safe, Advance;
      OthersKeep(s, t, choice, u);
    }
  }

  lemma WorkStep(s: State, t: Thread, choice: Choice)
    requires Inv(s) && t in s.threads && Ready(s, s.threads[t], choice)
    ensures Inv(Advance(s, t, choice)) && Later(s, Advance(s, t, choice))
  {
    AdvanceStep(s, t, choice);
    forall u | u in Advance(s, t, choice).threads && u != t
      ensures (u in s.threads && Advance(s, t, choice).threads[u] == s.threads[u])
                || Safe(Advance(s, t, choice), Advance(s, t, choice).threads[u])
    {
      OthersStep(s, t, choice, u);
    }
    SafeAll(s, Advance(s, t, choice));
  }

  lemma InvStep(s: State, step: Step)
    requires Inv(s) && Enabled(s, step)
    ensures Inv(Apply(s, step)) && Later(s, Apply(s, step))
  {
    hide Advance;
    if step.Work? {
      WorkStep(s, step.thread, step.choice);
    } else {
      CallStep(s, step);
      SafeAll(s, Apply(s, step));
    }
  }

  // ----- whole runs -----

  ghost predicate Run(states: seq<State>, steps: seq<Step>) {
    && |states| == |steps| + 1 && states[0] == INITIAL
    && (forall i :: 0 <= i < |steps| ==> Enabled(states[i], steps[i]) && states[i + 1] == Apply(states[i], steps[i]))
  }

  lemma {:induction false} RunInv(states: seq<State>, steps: seq<Step>, i: nat)
    requires Run(states, steps) && i < |states|
    ensures Inv(states[i])
  {
    if i > 0 {
      RunInv(states, steps, i - 1);
      InvStep(states[i - 1], steps[i - 1]);
    }
  }

  /** A goroutine inside `Close`: on its way, or back with the body of the once finished. */
  predicate InClose(s: State, pc: Pc) {
    || pc.CloseBegin? || pc.CloseMark? || pc.CloseCancel? || pc.CloseFinish?
    || (OfClosing(pc) && pc.owner)
    || (pc.Returned? && s.closing.Finished?)
  }

  lemma InCloseSelf(s: State, t: Thread, choice: Choice)
    requires !t.Worker? && t in s.threads && Ready(s, s.threads[t], choice) && InClose(s, s.threads[t])
    ensures InClose(Advance(s, t, choice), Advance(s, t, choice).threads[t])
  {
    match s.threads[t]
    case OnceBegin(_, _) =>
    case OnceFinish(_, _) =>
    case CloseCancel(_) =>
    case _ =>
  }

  lemma KeepsThreads(s: State, step: Step, t: Thread)
    requires Enabled(s, step) && t in s.threads && !t.Worker? && !(step.Work? && step.thread == t)
    ensures t in Apply(s, step).threads && Apply(s, step).threads[t] == s.threads[t]
  {
    if step.Work? {
      match s.threads[step.thread]
      case Entering =>
      case _ =>
    }
  }

  lemma InCloseStep(s: State, step: Step, t: Thread)
    requires Inv(s) && Enabled(s, step) && t in s.threads && !t.Worker? && InClose(s, s.threads[t])
    ensures t in Apply(s, step).threads && InClose(Apply(s, step), Apply(s, step).threads[t])
  {
    if step.Work? && step.thread == t {
      InCloseSelf(s, t, step.choice);
    } else {
      InvStep(s, step);
      KeepsThreads(s, step, t);
    }
  }

  /** Once the transport is closed its session table is empty, and it stays empty: a connect
      that is still under way finds the transport closed. */
  lemma {:induction false} ClosedStaysEmpty(states: seq<State>, steps: seq<Step>, i: nat, j: nat)
    requires Run(states, steps) && i <= j < |states| && states[i].closing.Finished?
    ensures states[j].closing.Finished? && states[j].closed && states[j].table == {}
  {
    hide Apply;
    RunInv(states, steps, j);
    if i < j {
      ClosedStaysEmpty(states, steps, i, j - 1);
      RunInv(states, steps, j - 1);
      InvStep(states[j - 1], steps[j - 1]);
    }
  }

  lemma {:induction false} StaysInClose(states: seq<State>, steps: seq<Step>, i: nat, j: nat, n: nat)
    requires Run(states, steps) && i < j < |states| && steps[i] == CallClose(n)
    ensures Caller(n) in states[j].threads && InClose(states[j], states[j].threads[Caller(n)])
  {
    if j > i + 1 {
      StaysInClose(states, steps, i, j - 1, n);
      RunInv(states, steps, j - 1);
      InCloseStep(states[j - 1], steps[j - 1], Caller(n));
    }
  }

  /** Once some call of `Close` has returned, the transport is closed and its session table is
      empty, in every continuation: a connect that is still under way finds it closed. */
  lemma ReturnedCloseIsFinal(states: seq<State>, steps: seq<Step>, i: nat, j: nat, k: nat, n: nat)
    requires Run(states, steps) && i < j <= k < |states| && steps[i] == CallClose(n)
    requires Caller(n) in states[j].threads && states[j].threads[Caller(n)].Returned?
    ensures states[k].closed && states[k].closing.Finished? && states[k].table == {}
  {
    StaysInClose(states, steps, i, j, n);
    ClosedStaysEmpty(states, steps, j, k);
  }

  /** Only a session that ended by itself, while nobody had closed it or canceled its
      transport, is ever reported as a failure. */
  lemma OnlyUnexpectedEndsAreReported(states: seq<State>, steps: seq<Step>, i: nat, id: Id)
    requires Run(states, steps) && i < |states| && id in states[i].failures
    ensures id in states[i].sessions && states[i].sessions[id].ended == Some(Unexpected)
  {
    RunInv(states, steps, i);
  }
}
