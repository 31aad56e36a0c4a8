/** The keyed dispatch of native mutations other than `job.start`, as a state machine over
    every caller, every process crash and every power loss.

    State files survive a crash; the active set, the locks and the callers do not. */
module MutationProtocol {
  import opened Common
  import opened Register

  type Key = nat
  type Native = int

  datatype Request = Request(operation: nat, hash: nat)

  datatype Progress = InProgress | Completed(result: Native)

  datatype Record = Record(request: Request, progress: Progress)

  datatype Reply =
    | Active
    | StateFailed
    | StateCorrupt
    | Conflict
    | Uncertain
    | Replayed(result: Native)
    | Unpublished(result: Native)
    | Executed(result: Native)
  {
    predicate Carries() {
      Replayed? || Unpublished? || Executed?
    }
  }

  datatype Pc =
    | Start
    | Locking
    | Reading
    | Recording
    | Executing
    | Completing(result: Native)
    | Pruning(result: Native)
    | Unlocking(reply: Reply)
    | Deactivating(reply: Reply)
    | Done(reply: Reply)
  {
    /** The caller has entered its key into the active set and not taken it out yet. */
    predicate Entered() {
      !Start? && !Done?
    }

    predicate Locked() {
      Entered() && !Locking? && !Deactivating?
    }
  }

  datatype Caller = Caller(key: Key, request: Request, pc: Pc)

  datatype Event = Ran(key: Key, request: Request, result: Native) | Pruned(keys: set<Key>)

  /** What the environment decides in one step of a caller: whether a lock or read succeeds
      and whether closing the directory does, how far a durable write gets, what the native
      operation returns, and which candidates a prune removes. */
  datatype Choice = Choice(ok: bool, outcome: Outcome, result: Native, prune: set<Key>)

  datatype Step =
    | Arrive(key: Key, request: Request)
    | Work(caller: nat, choice: Choice)
    | Crash(powerLoss: bool, contents: map<Key, Option<Record>>)

  datatype State = State(
    callers: map<nat, Caller>,
    arrivals: nat,
    active: set<Key>,
    locks: map<Key, nat>,
    files: map<Key, Register<Record>>,
    log: seq<Event>)
  {
    function File(key: Key): Register<Record> {
      if key in files then files[key] else Missing()
    }

    function At(c: nat, pc: Pc): State
      requires c in callers
    {
      this.(callers := callers[c := callers[c].(pc := pc)])
    }

    /** The candidates of a prune: completed records whose key nobody is working on. */
    predicate Prunable(key: Key) {
      key !in active && File(key).visible.Some? && File(key).visible.value.progress.Completed?
    }
  }

  const INITIAL := State(map[], 0, {}, map[], map[], [])

  /** The reply that an existing record forces. */
  function Decide(record: Record, request: Request): Reply {
    if record.request != request then Conflict
    else match record.progress
      case Completed(result) => Replayed(result)
      case InProgress => Uncertain
  }

  predicate Enabled(s: State, step: Step) {
    match step
    case Arrive(_, _) => true
    case Work(c, choice) =>
      && c in s.callers && !s.callers[c].pc.Done?
      && (s.callers[c].pc.Locking? && choice.ok ==> s.callers[c].key !in s.locks)
    case Crash(powerLoss, contents) =>
      powerLoss ==> forall k :: k in s.files ==> k in contents && contents[k] in s.files[k].possible
  }

  function Apply(s: State, step: Step): State
    requires Enabled(s, step)
  {
    match step
    case Arrive(key, request) =>
      s.(callers := s.callers[s.arrivals := Caller(key, request, Start)], arrivals := s.arrivals + 1)
    case Work(c, choice) => Advance(s, c, choice)
    case Crash(powerLoss, contents) =>
      s.(callers := map[], active := {}, locks := map[],
         files := if powerLoss then map k | k in s.files :: s.files[k].Recover(contents[k]) else s.files)
  }

  /** One step of one caller. */
  function Advance(s: State, c: nat, choice: Choice): State
    requires c in s.callers
  {
    var Caller(key, request, pc) := s.callers[c];
    match pc
    case Start =>
      if key in s.active then s.At(c, Done(Active)) else s.At(c, Locking).(active := s.active + {key})
    case Locking =>
      if choice.ok then s.At(c, Reading).(locks := s.locks[key := c]) else s.At(c, Deactivating(StateFailed))
    case Reading =>
      if !choice.ok then s.At(c, Unlocking(StateCorrupt))
      else if s.File(key).visible.None? then s.At(c, Recording)
      else s.At(c, Unlocking(Decide(s.File(key).visible.value, request)))
    case Recording =>
      var written := s.(files := s.files[key := s.File(key).Write(Record(request, InProgress), choice.outcome)]);
      if choice.outcome.Published? && choice.ok then written.At(c, Executing) else written.At(c, Unlocking(StateFailed))
    case Executing =>
      s.At(c, Completing(choice.result)).(log := s.log + [Ran(key, request, choice.result)])
    case Completing(result) =>
      var written := s.(files := s.files[key := s.File(key).Write(Record(request, Completed(result)), choice.outcome)]);
      if choice.outcome.Published? && choice.ok then written.At(c, Pruning(result))
      else written.At(c, Unlocking(Unpublished(result)))
    case Pruning(result) =>
      var removed := set k | k in choice.prune && s.Prunable(k);
      s.At(c, Unlocking(Executed(result))).(
        files := map k | k in s.files :: if k in removed then s.files[k].Unlink() else s.files[k],
        log := s.log + [Pruned(removed)])
    case Unlocking(reply) => s.At(c, Deactivating(reply)).(locks := s.locks - {key})
    case Deactivating(reply) => s.At(c, Done(reply)).(active := s.active - {key})
    case Done(_) => s
  }

  /** The native executions under `key` since its record was last pruned. */
  function Executions(log: seq<Event>, key: Key): seq<Event> {
    if log == [] then []
    else
      var earlier, last := log[..|log| - 1], log[|log| - 1];
      match last
      case Ran(k, _, _) => if k == key then Executions(earlier, key) + [last] else Executions(earlier, key)
      case Pruned(keys) => if key in keys then [] else Executions(earlier, key)
  }

  lemma ExecutionsAfter(log: seq<Event>, event: Event, key: Key)
    ensures Executions(log + [event], key) ==
      match event
      case Ran(k, _, _) => if k == key then Executions(log, key) + [event] else Executions(log, key)
      case Pruned(keys) => if key in keys then [] else Executions(log, key)
  {
    assert (log + [event])[..|log|] == log;
  }

  // ----- invariants -----

  /** Callers between activation and deactivation have their key in the active set, no two
      of them share a key, and a digest lock belongs to exactly the caller that took it. */
  ghost predicate Exclusive(callers: map<nat, Caller>, active: set<Key>, locks: map<Key, nat>) {
    && (forall c :: c in callers && callers[c].pc.Entered() ==> callers[c].key in active)
    && (forall c, d :: c in callers && d in callers && callers[c].pc.Entered() && callers[d].pc.Entered() && c != d
          ==> callers[c].key != callers[d].key)
    && (forall c :: c in callers && callers[c].pc.Locked() ==> callers[c].key in locks && locks[callers[c].key] == c)
    && (forall k :: k in locks ==> locks[k] in callers && callers[locks[k]].pc.Locked() && callers[locks[k]].key == k)
  }

  /** The record of a key agrees with what ran under it: at most one execution, and once
      there was one, whatever the file may ever hold is a record of that very request. */
  ghost predicate Accounted(s: State, key: Key) {
    && s.File(key).Valid() && Tight(s.File(key))
    && |Executions(s.log, key)| <= 1
    && (forall e :: e in Executions(s.log, key) ==> e.Ran? && e.key == key && Bound(s.File(key), e.request))
    && (forall contents :: contents in s.File(key).possible && contents.Some? && contents.value.progress.Completed?
          ==> Ran(key, contents.value.request, contents.value.progress.result) in s.log)
  }

  ghost predicate Bound(file: Register<Record>, request: Request) {
    forall contents :: contents in file.possible ==> contents.Some? && contents.value.request == request
  }

  /** Nothing but this result of this request can be found in the file. */
  predicate Settled(file: Register<Record>, request: Request, result: Native) {
    file == Register(Some(Record(request, Completed(result))), {Some(Record(request, Completed(result)))})
  }

  /** Nothing but this result of this request can be found in the file, or that it is under way. */
  ghost predicate Holds(file: Register<Record>, request: Request, result: Native) {
    forall c :: c in file.possible ==>
      c == Some(Record(request, InProgress)) || c == Some(Record(request, Completed(result)))
  }

  /** Next to a visible result nothing else can be found. */
  ghost predicate Tight(file: Register<Record>) {
    file.visible.Some? && file.visible.value.progress.Completed? ==>
      Holds(file, file.visible.value.request, file.visible.value.progress.result)
  }

  /** What a caller knows about its own key at each program point. */
  ghost predicate Informed(s: State, c: nat)
    requires c in s.callers
  {
    var Caller(key, request, pc) := s.callers[c];
    match pc
    case Recording => s.File(key).visible == None
    case Executing =>
      && s.File(key) == Register(Some(Record(request, InProgress)), {Some(Record(request, InProgress))})
      && Executions(s.log, key) == []
    case Completing(result) =>
      && s.File(key) == Register(Some(Record(request, InProgress)), {Some(Record(request, InProgress))})
      && Ran(key, request, result) in s.log && Executions(s.log, key) == [Ran(key, request, result)]
    case Pruning(result) => Ran(key, request, result) in s.log && Settled(s.File(key), request, result)
    case Unlocking(reply) =>
      && Truthful(s.log, key, request, reply) && (reply.Executed? ==> Settled(s.File(key), request, reply.result))
      && (reply.Carries() ==> Holds(s.File(key), request, reply.result))
    case Deactivating(reply) =>
      && Truthful(s.log, key, request, reply) && (reply.Executed? ==> Settled(s.File(key), request, reply.result))
      && (reply.Carries() ==> Holds(s.File(key), request, reply.result))
    case Done(reply) => Truthful(s.log, key, request, reply)
    case _ => true
  }

  /** A result in a reply is the result of a real execution of that request under that key. */
  ghost predicate Truthful(log: seq<Event>, key: Key, request: Request, reply: Reply) {
    match reply
    case Replayed(result) => Ran(key, request, result) in log
    case Unpublished(result) => Ran(key, request, result) in log
    case Executed(result) => Ran(key, request, result) in log
    case _ => true
  }

  ghost predicate Inv(s: State) {
    && (forall c :: c in s.callers ==> c < s.arrivals)
    && Exclusive(s.callers, s.active, s.locks)
    && (forall key :: Accounted(s, key))
    && (forall c :: c in s.callers ==> Informed(s, c))
  }

  lemma EnterExclusive(callers: map<nat, Caller>, active: set<Key>, locks: map<Key, nat>, c: nat, pc: Pc)
    requires Exclusive(callers, active, locks) && c in callers
    requires callers[c].key !in active && pc.Locking?
    ensures Exclusive(callers[c := callers[c].(pc := pc)], active + {callers[c].key}, locks)
  {
  }

  lemma MoveExclusive(callers: map<nat, Caller>, active: set<Key>, locks: map<Key, nat>, c: nat, pc: Pc)
    requires Exclusive(callers, active, locks) && c in callers
    requires pc.Entered() == callers[c].pc.Entered() && pc.Locked() == callers[c].pc.Locked()
    ensures Exclusive(callers[c := callers[c].(pc := pc)], active, locks)
  {
  }

  lemma LockExclusive(callers: map<nat, Caller>, active: set<Key>, locks: map<Key, nat>, c: nat)
    requires Exclusive(callers, active, locks) && c in callers
    requires callers[c].pc.Locking? && callers[c].key !in locks
    ensures Exclusive(callers[c := callers[c].(pc := Reading)], active, locks[callers[c].key := c])
  {
  }

  lemma UnlockExclusive(callers: map<nat, Caller>, active: set<Key>, locks: map<Key, nat>, c: nat, reply: Reply)
    requires Exclusive(callers, active, locks) && c in callers && callers[c].pc.Unlocking?
    ensures Exclusive(callers[c := callers[c].(pc := Deactivating(reply))], active, locks - {callers[c].key})
  {
  }

  lemma LeaveExclusive(callers: map<nat, Caller>, active: set<Key>, locks: map<Key, nat>, c: nat, reply: Reply)
    requires Exclusive(callers, active, locks) && c in callers && callers[c].pc.Deactivating?
    ensures Exclusive(callers[c := callers[c].(pc := Done(reply))], active - {callers[c].key}, locks)
  {
  }

  lemma ExclusiveStep(s: State, step: Step)
    requires Inv(s) && Enabled(s, step)
    ensures Exclusive(Apply(s, step).callers, Apply(s, step).active, Apply(s, step).locks)
  {
    if step.Work? {
      var c, t := step.caller, Apply(s, step);
      match s.callers[c].pc
      case Start =>
        if s.callers[c].key in s.active { MoveExclusive(s.callers, s.active, s.locks, c, Done(Active)); }
        else { EnterExclusive(s.callers, s.active, s.locks, c, Locking); }
      case Locking =>
        if step.choice.ok { LockExclusive(s.callers, s.active, s.locks, c); }
        else { MoveExclusive(s.callers, s.active, s.locks, c, Deactivating(StateFailed)); }
      case Unlocking(reply) => UnlockExclusive(s.callers, s.active, s.locks, c, reply);
      case Deactivating(reply) => LeaveExclusive(s.callers, s.active, s.locks, c, reply);
      case Done(_) =>
      case _ => MoveExclusive(s.callers, s.active, s.locks, c, t.callers[c].pc);
    }
  }

  /** What one step can do to one key: nothing, a write or an execution by the one caller
      inside, the unlink of a prune while nobody is inside, or a power loss. */
  ghost predicate Touches(s: State, step: Step, t: State, key: Key) {
    || (t.File(key) == s.File(key) && Executions(t.log, key) == Executions(s.log, key))
    || (step.Work? && By(s, step.caller, key) && Writing(s, step.caller, t)
        && Executions(t.log, key) == Executions(s.log, key))
    || (step.Work? && By(s, step.caller, key) && s.callers[step.caller].pc.Executing? && t.File(key) == s.File(key)
        && Executions(t.log, key) ==
            Executions(s.log, key) + [Ran(key, s.callers[step.caller].request, step.choice.result)])
    || (key !in s.active && t.File(key) == s.File(key).Unlink() && Executions(t.log, key) == [])
    || (step.Crash? && step.powerLoss && key in step.contents && step.contents[key] in s.File(key).possible
        && t.File(key) == s.File(key).Recover(step.contents[key]) && Executions(t.log, key) == Executions(s.log, key))
  }

  predicate By(s: State, c: nat, key: Key) {
    c in s.callers && s.callers[c].key == key
  }

  ghost predicate Writing(s: State, c: nat, t: State)
    requires c in s.callers
  {
    var Caller(key, request, pc) := s.callers[c];
    exists progress, outcome :: Writes(pc, progress)
        && t.File(key) == s.File(key).Write(Record(request, progress), outcome)
  }

  predicate Writes(pc: Pc, progress: Progress) {
    (pc.Recording? && progress == InProgress) || (pc.Completing? && progress == Completed(pc.result))
  }

  lemma StepTouches(s: State, step: Step, key: Key)
    requires Enabled(s, step)
    ensures Touches(s, step, Apply(s, step), key)
  {
    var t := Apply(s, step);
    if step.Work? {
      var c, choice := step.caller, step.choice;
      match s.callers[c].pc
      case Recording =>
        assert Writes(s.callers[c].pc, InProgress);
        assert key == s.callers[c].key ==> Writing(s, c, t);
      case Executing =>
        ExecutionsAfter(s.log, Ran(s.callers[c].key, s.callers[c].request, choice.result), key);
      case Completing(result) =>
        assert Writes(s.callers[c].pc, Completed(result));
        assert key == s.callers[c].key ==> Writing(s, c, t);
      case Pruning(_) =>
        ExecutionsAfter(s.log, Pruned(set k | k in choice.prune && s.Prunable(k)), key);
      case _ =>
    } else if step.Crash? && step.powerLoss && key in s.files {
      assert step.contents[key] in s.File(key).possible;
    }
  }

  lemma AccountedTouch(s: State, step: Step, t: State, key: Key)
    requires Touches(s, step, t, key) && s.log <= t.log && Accounted(s, key)
    requires forall c :: c in s.callers ==> Informed(s, c)
    ensures Accounted(t, key)
  {
    if step.Work? && By(s, step.caller, key) {
      assert Informed(s, step.caller);
    }
  }

  lemma LogGrows(s: State, step: Step)
    requires Enabled(s, step)
    ensures s.log <= Apply(s, step).log
  {
  }

  lemma AccountedStep(s: State, step: Step, key: Key)
    requires Inv(s) && Enabled(s, step)
    ensures Accounted(Apply(s, step), key)
  {
    hide Advance, Exclusive;
    StepTouches(s, step, key);
    LogGrows(s, step);
    AccountedTouch(s, step, Apply(s, step), key);
  }

  lemma OthersKeepCaller(s: State, step: Step, c: nat)
    requires Enabled(s, step) && c in s.callers && !step.Crash? && c < s.arrivals && !(step.Work? && step.caller == c)
    ensures c in Apply(s, step).callers && Apply(s, step).callers[c] == s.callers[c]
  {
  }

  /** While a caller is inside, no step of another caller and no prune touches its key. */
  lemma OthersLeaveKey(s: State, step: Step, c: nat)
    requires Inv(s) && Enabled(s, step)
    requires c in s.callers && s.callers[c].pc.Entered() && !step.Crash? && !(step.Work? && step.caller == c)
    ensures Apply(s, step).File(s.callers[c].key) == s.File(s.callers[c].key)
    ensures Executions(Apply(s, step).log, s.callers[c].key) == Executions(s.log, s.callers[c].key)
  {
    hide Apply, Accounted, Informed, Executions;
    var key := s.callers[c].key;
    StepTouches(s, step, key);
    if step.Work? {
      assert s.callers[step.caller].pc.Entered() ==> s.callers[step.caller].key != key;
    }
  }

  lemma NewCallers(s: State, step: Step, c: nat)
    requires Enabled(s, step) && c in Apply(s, step).callers && c !in s.callers
    ensures Apply(s, step).callers[c].pc.Start?
  {
  }

  lemma InformedReading(s: State, c: nat, choice: Choice)
    requires c in s.callers && s.callers[c].pc.Reading? && Accounted(s, s.callers[c].key)
    ensures Informed(Advance(s, c, choice), c)
  {
    var Caller(key, request, pc) := s.callers[c];
    hide Executions;
    if choice.ok && s.File(key).visible.Some? && Decide(s.File(key).visible.value, request).Replayed? {
      assert s.File(key).visible in s.File(key).possible;
    }
  }

  lemma FirstIsIn(events: seq<Event>)
    ensures events == [] || events[0] in events
  {
  }

  lemma InformedRecording(s: State, c: nat, choice: Choice)
    requires c in s.callers && s.callers[c].pc.Recording? && Informed(s, c) && Accounted(s, s.callers[c].key)
    ensures Informed(Advance(s, c, choice), c)
  {
    var key := s.callers[c].key;
    hide Executions;
    assert None in s.File(key).possible;
    FirstIsIn(Executions(s.log, key));
  }

  lemma InformedExecuting(s: State, c: nat, choice: Choice)
    requires c in s.callers && s.callers[c].pc.Executing? && Informed(s, c)
    ensures Informed(Advance(s, c, choice), c)
  {
    var Caller(key, request, pc) := s.callers[c];
    ExecutionsAfter(s.log, Ran(key, request, choice.result), key);
    hide Executions;
  }

  lemma InformedSelf(s: State, c: nat, choice: Choice)
    requires c in s.callers && Informed(s, c) && Accounted(s, s.callers[c].key) && !s.callers[c].pc.Done?
    requires s.callers[c].pc.Entered() ==> s.callers[c].key in s.active
    ensures Informed(Advance(s, c, choice), c)
  {
    match s.callers[c].pc
    case Reading => InformedReading(s, c, choice);
    case Recording => InformedRecording(s, c, choice);
    case Executing => InformedExecuting(s, c, choice);
    case _ => hide Executions, Accounted;
  }

  lemma InformedStep(s: State, step: Step, c: nat)
    requires Inv(s) && Enabled(s, step) && c in Apply(s, step).callers
    ensures Informed(Apply(s, step), c)
  {
    hide Advance;
    if step.Work? && step.caller == c {
      assert Accounted(s, s.callers[c].key);
      InformedSelf(s, c, step.choice);
    } else if c in s.callers {
      assert Informed(s, c);
      LogGrows(s, step);
      OthersKeepCaller(s, step, c);
      if s.callers[c].pc.Entered() {
        OthersLeaveKey(s, step, c);
      }
    } else {
      NewCallers(s, step, c);
    }
  }

  lemma ArrivalsStep(s: State, step: Step)
    requires Enabled(s, step) && forall c :: c in s.callers ==> c < s.arrivals
    ensures forall c :: c in Apply(s, step).callers ==> c < Apply(s, step).arrivals
  {
  }

  lemma InvStep(s: State, step: Step)
    requires Inv(s) && Enabled(s, step)
    ensures Inv(Apply(s, step))
  {
    ArrivalsStep(s, step);
    hide Advance, Accounted, Informed, Exclusive;
    ExclusiveStep(s, step);
    forall key ensures Accounted(Apply(s, step), key) { AccountedStep(s, step, key); }
    forall c | c in Apply(s, step).callers ensures Informed(Apply(s, step), c) { InformedStep(s, step, c); }
  }

  // ----- whole runs -----

  ghost predicate Run(states: seq<State>, steps: seq<Step>) {
    && |states| == |steps| + 1 && states[0] == INITIAL
    && (forall i :: 0 <= i < |steps| ==> Enabled(states[i], steps[i]) && states[i + 1] == Apply(states[i], steps[i]))
  }

  lemma {:induction false} RunInv(states: seq<State>, steps: seq<Step>, i: nat)
    requires Run(states, steps) && i < |states|
    ensures Inv(states[i])
  {
    if i > 0 {
      RunInv(states, steps, i - 1);
      InvStep(states[i - 1], steps[i - 1]);
    }
  }

  /** Over every interleaving, crash and restart: since the record of a key was last pruned
      the native operation has run at most once under it, and if it has run, whatever the
      state file holds or may hold after a power loss is a record of that very request. */
  lemma AtMostOnce(states: seq<State>, steps: seq<Step>, i: nat, key: Key)
    requires Run(states, steps) && i < |states|
    ensures |Executions(states[i].log, key)| <= 1
    ensures forall e :: e in Executions(states[i].log, key) ==>
              e.Ran? && e.key == key && Bound(states[i].File(key), e.request)
  {
    RunInv(states, steps, i);
    assert Accounted(states[i], key);
  }

  /** Write-ahead: the native operation starts only when nothing but an in-progress record
      of this request can be found in the state file, now or after a power loss. */
  lemma RecordedBeforeExecution(states: seq<State>, steps: seq<Step>, i: nat, c: nat)
    requires Run(states, steps) && i < |steps|
    requires steps[i].Work? && steps[i].caller == c && states[i].callers[c].pc.Executing?
    ensures states[i].File(states[i].callers[c].key).possible ==
              {Some(Record(states[i].callers[c].request, InProgress))}
    ensures Executions(states[i].log, states[i].callers[c].key) == []
  {
    RunInv(states, steps, i);
    assert Informed(states[i], c);
  }

  /** No reply carries an invented result. */
  lemma RepliesAreTruthful(states: seq<State>, steps: seq<Step>, i: nat, c: nat)
    requires Run(states, steps) && i < |states| && c in states[i].callers && states[i].callers[c].pc.Done?
    ensures Truthful(states[i].log, states[i].callers[c].key, states[i].callers[c].request,
                     states[i].callers[c].pc.reply)
  {
    RunInv(states, steps, i);
    assert Informed(states[i], c);
  }

  /** No two callers ever hold or wait for the same key at once. */
  lemma OneCallerPerKey(states: seq<State>, steps: seq<Step>, i: nat, c: nat, d: nat)
    requires Run(states, steps) && i < |states| && c in states[i].callers && d in states[i].callers && c != d
    requires states[i].callers[c].pc.Entered() && states[i].callers[d].pc.Entered()
    ensures states[i].callers[c].key != states[i].callers[d].key
  {
    RunInv(states, steps, i);
  }

  /** The replies a caller may get while `record` stays in place for its key. */
  predicate Settles(record: Record, request: Request, reply: Reply) {
    match reply
    case Conflict => record.request != request
    case Uncertain => record.request == request && record.progress.InProgress?
    case Replayed(result) => record.request == request && record.progress == Completed(result)
    case _ => reply in {Active, StateFailed, StateCorrupt}
  }

  predicate Settling(record: Record, request: Request, pc: Pc) {
    match pc
    case Unlocking(reply) => Settles(record, request, reply)
    case Deactivating(reply) => Settles(record, request, reply)
    case Done(reply) => Settles(record, request, reply)
    case _ => pc.Start? || pc.Locking? || pc.Reading?
  }

  /** Only `record` can be found under `key`, and nobody is about to complete it. */
  ghost predicate Frozen(s: State, key: Key, record: Record) {
    && s.File(key) == Register(Some(record), {Some(record)})
    && forall c :: c in s.callers && s.callers[c].key == key ==>
        !s.callers[c].pc.Executing? && !s.callers[c].pc.Completing?
  }

  /** Every caller for `key` that arrived at or after `since` is on its way to a settled reply. */
  ghost predicate Replaying(s: State, key: Key, record: Record, since: nat) {
    && Frozen(s, key, record)
    && forall c :: c in s.callers && c >= since && s.callers[c].key == key ==>
        Settling(record, s.callers[c].request, s.callers[c].pc)
  }

  predicate Prunes(s: State, step: Step, key: Key)
    requires Enabled(s, step)
  {
    step.Work? && s.callers[step.caller].pc.Pruning? && key in step.choice.prune && s.Prunable(key)
  }

  lemma FrozenStep(s: State, step: Step, key: Key, record: Record)
    requires Inv(s) && Enabled(s, step) && Frozen(s, key, record) && !Prunes(s, step, key)
    ensures Frozen(Apply(s, step), key, record)
  {
    if step.Work? {
      assert Informed(s, step.caller);
    }
  }

  lemma ReplayingStep(s: State, step: Step, key: Key, record: Record, since: nat)
    requires Inv(s) && Enabled(s, step) && Replaying(s, key, record, since) && since <= s.arrivals
    requires !Prunes(s, step, key)
    ensures Replaying(Apply(s, step), key, record, since)
  {
    FrozenStep(s, step, key, record);
    if step.Work? {
      assert Informed(s, step.caller);
    }
  }

  /** What a caller is answered when it has read a record: a conflict for another request, and
      for its own what the record says. */
  lemma ReadsAnswerExactly(s: State, c: nat, choice: Choice, record: Record)
    requires c in s.callers && s.callers[c].pc.Reading? && choice.ok
    requires s.callers[c].key in s.files && s.files[s.callers[c].key].visible == Some(record)
    ensures Advance(s, c, choice).callers[c].pc ==
            Unlocking(if record.request != s.callers[c].request then Conflict
                      else if record.progress.InProgress? then Uncertain
                      else Replayed(record.progress.result))
    ensures Advance(s, c, choice).files == s.files && Advance(s, c, choice).log == s.log
  {
  }

  predicate AnswersCorrupt(s: State, c: nat) {
    && c in s.callers
    && match s.callers[c].pc
       case Unlocking(reply) => reply == StateCorrupt
       case Deactivating(reply) => reply == StateCorrupt
       case Done(reply) => reply == StateCorrupt
       case _ => false
  }

  /** A caller is told that the state is corrupt only because its read of the record failed. */
  lemma {:induction false} CorruptMeansFailedRead(states: seq<State>, steps: seq<Step>, i: nat, c: nat) returns (k: nat)
    requires Run(states, steps) && i < |states| && AnswersCorrupt(states[i], c)
    ensures k < i && c in states[k].callers && states[k].callers[c].pc.Reading?
    ensures steps[k].Work? && steps[k].caller == c && !steps[k].choice.ok
  {
    CorruptStep(states[i - 1], steps[i - 1], c);
    if AnswersCorrupt(states[i - 1], c) {
      k := CorruptMeansFailedRead(states, steps, i - 1, c);
    } else {
      k := i - 1;
    }
  }

  lemma CorruptStep(s: State, step: Step, c: nat)
    requires Enabled(s, step) && AnswersCorrupt(Apply(s, step), c)
    ensures AnswersCorrupt(s, c) ||
            (step.Work? && step.caller == c && s.callers[c].pc.Reading? && !step.choice.ok)
  {
  }

  /** A record published as completed is frozen at once: no other caller is inside. */
  lemma PublishedIsFrozen(states: seq<State>, steps: seq<Step>, i: nat, key: Key, record: Record)
    requires Run(states, steps) && i < |states|
    requires record.progress.Completed? && states[i].File(key) == Register(Some(record), {Some(record)})
    ensures Frozen(states[i], key, record)
  {
    RunInv(states, steps, i);
    forall c | c in states[i].callers && states[i].callers[c].key == key
      ensures !states[i].callers[c].pc.Executing? && !states[i].callers[c].pc.Completing?
    {
      assert Informed(states[i], c);
    }
  }

  /** Stable replay: while the record of a key is not pruned, a published result - or an
      in-progress record whose caller is gone - is never changed by any caller, crash or
      power loss. Every caller that arrives from then on is refused while another one is
      active, fails on its lock or read, or gets what the record says: that same result (or
      `Uncertain`) for the same request, and a conflict for any other. */
  lemma {:induction false} StableReplay(states: seq<State>, steps: seq<Step>, i: nat, j: nat, key: Key, record: Record)
    requires Run(states, steps) && i <= j < |states| && Frozen(states[i], key, record)
    requires forall k :: i <= k < j ==> !Prunes(states[k], steps[k], key)
    ensures Replaying(states[j], key, record, states[i].arrivals) && states[i].arrivals <= states[j].arrivals
  {
    if i == j {
      RunInv(states, steps, i);
    } else {
      StableReplay(states, steps, i, j - 1, key, record);
      RunInv(states, steps, j - 1);
      ReplayingStep(states[j - 1], steps[j - 1], key, record, states[i].arrivals);
    }
  }

  /** A caller that is given the result of its own execution, and everybody who comes after it:
      until the record is pruned, whoever arrives later under the key gets that very result for
      the same request and a conflict for any other, unless it is refused because another caller
      is active or because its lock or read fails. */
  lemma ExecutedIsReplayed(states: seq<State>, steps: seq<Step>, i: nat, j: nat, c: nat, d: nat)
    requires Run(states, steps) && i < |steps| && i <= j < |states|
    requires steps[i].Work? && steps[i].caller == c
    requires states[i].callers[c].pc.Deactivating? && states[i].callers[c].pc.reply.Executed?
    requires forall k :: i <= k < j ==> !Prunes(states[k], steps[k], states[i].callers[c].key)
    requires d in states[j].callers && d >= states[i].arrivals && states[j].callers[d].pc.Done?
    requires states[j].callers[d].key == states[i].callers[c].key
    ensures var Caller(key, request, pc) := states[i].callers[c];
            var reply := states[j].callers[d].pc.reply;
            reply in {Active, StateFailed, StateCorrupt} ||
            reply == if states[j].callers[d].request == request then Replayed(pc.reply.result) else Conflict
  {
    var Caller(key, request, pc) := states[i].callers[c];
    var record := Record(request, Completed(pc.reply.result));
    RunInv(states, steps, i);
    assert Informed(states[i], c);
    PublishedIsFrozen(states, steps, i, key, record);
    StableReplay(states, steps, i, j, key, record);
  }

  /** Only `result` can be given to a caller of `key`: nothing else can be found, nobody is about
      to execute, and whoever carries a result carries this one. */
  ghost predicate Pinned(s: State, key: Key, request: Request, result: Native) {
    && Holds(s.File(key), request, result)
    && forall c :: c in s.callers && s.callers[c].key == key && s.callers[c].pc.Entered() ==>
         Carrying(s.callers[c].pc, s.callers[c].request, request, result)
  }

  predicate Carrying(pc: Pc, mine: Request, request: Request, result: Native) {
    match pc
    case Unlocking(reply) => reply.Carries() ==> mine == request && reply.result == result
    case Deactivating(reply) => reply.Carries() ==> mine == request && reply.result == result
    case _ => pc.Locking? || pc.Reading?
  }

  lemma PinnedStep(s: State, step: Step, key: Key, request: Request, result: Native)
    requires Inv(s) && Enabled(s, step) && Pinned(s, key, request, result) && !Prunes(s, step, key)
    ensures Pinned(Apply(s, step), key, request, result)
  {
    assert Accounted(s, key);
    if step.Work? && s.callers[step.caller].key == key {
      PinnedWork(s, step.caller, step.choice, request, result);
    } else {
      PinnedElsewhere(s, step, key, request, result);
    }
  }

  lemma PinnedWork(s: State, c: nat, choice: Choice, request: Request, result: Native)
    requires Inv(s) && Enabled(s, Work(c, choice)) && Pinned(s, s.callers[c].key, request, result)
    ensures Pinned(Advance(s, c, choice), s.callers[c].key, request, result)
  {
    assert Accounted(s, s.callers[c].key);
    hide Executions, Accounted;
  }

  lemma PinnedElsewhere(s: State, step: Step, key: Key, request: Request, result: Native)
    requires Inv(s) && Enabled(s, step) && Pinned(s, key, request, result) && !Prunes(s, step, key)
    requires step.Work? ==> s.callers[step.caller].key != key
    ensures Pinned(Apply(s, step), key, request, result)
  {
    hide Executions, Accounted;
  }

  lemma {:induction false} StaysPinned(states: seq<State>, steps: seq<Step>, i: nat, j: nat, key: Key, request: Request,
                                       result: Native)
    requires Run(states, steps) && i <= j < |states| && Pinned(states[i], key, request, result)
    requires forall k :: i <= k < j ==> !Prunes(states[k], steps[k], key)
    ensures Pinned(states[j], key, request, result)
  {
    if i < j {
      StaysPinned(states, steps, i, j - 1, key, request, result);
      RunInv(states, steps, j - 1);
      PinnedStep(states[j - 1], steps[j - 1], key, request, result);
    }
  }

  /** In this step a call leaves with a reply that carries a result. */
  predicate Leaves(s: State, step: Step, c: nat) {
    && step.Work? && step.caller == c && c in s.callers
    && s.callers[c].pc.Deactivating? && s.callers[c].pc.reply.Carries()
  }

  /** One key, one result: until the record of a key is pruned, no two calls under it leave with
      different results, or with results of different requests - executed, replayed or
      unpublished, and whatever writes fail and power losses happen in between. */
  lemma OneResultPerKey(states: seq<State>, steps: seq<Step>, i: nat, j: nat, c: nat, d: nat)
    requires Run(states, steps) && i <= j < |steps|
    requires Leaves(states[i], steps[i], c) && Leaves(states[j], steps[j], d)
    requires states[i].callers[c].key == states[j].callers[d].key
    requires forall k :: i <= k < j ==> !Prunes(states[k], steps[k], states[i].callers[c].key)
    ensures states[i].callers[c].pc.reply.result == states[j].callers[d].pc.reply.result
    ensures states[i].callers[c].request == states[j].callers[d].request
  {
    var Caller(key, request, pc) := states[i].callers[c];
    RunInv(states, steps, i);
    assert Informed(states[i], c);
    assert Pinned(states[i], key, request, pc.reply.result);
    StaysPinned(states, steps, i, j, key, request, pc.reply.result);
  }

  /** A crash anywhere between the two durable writes leaves exactly the in-progress record. */
  lemma CrashFreezes(states: seq<State>, steps: seq<Step>, i: nat, c: nat)
    requires Run(states, steps) && i < |steps| && steps[i].Crash?
    requires c in states[i].callers && (states[i].callers[c].pc.Executing? || states[i].callers[c].pc.Completing?)
    ensures Frozen(states[i + 1], states[i].callers[c].key, Record(states[i].callers[c].request, InProgress))
  {
    RunInv(states, steps, i);
    assert Informed(states[i], c);
  }

  /** An in-progress record is never a candidate of a prune, so an execution that was cut
      off by a crash stays uncertain for good. */
  lemma {:induction false} OrphanStaysUncertain(states: seq<State>, steps: seq<Step>, i: nat, j: nat, key: Key,
                                                request: Request)
    requires Run(states, steps) && i <= j < |states| && Frozen(states[i], key, Record(request, InProgress))
    ensures Replaying(states[j], key, Record(request, InProgress), states[i].arrivals)
    ensures states[i].arrivals <= states[j].arrivals
    ensures Executions(states[j].log, key) == Executions(states[i].log, key)
  {
    if i == j {
      RunInv(states, steps, i);
    } else {
      OrphanStaysUncertain(states, steps, i, j - 1, key, request);
      RunInv(states, steps, j - 1);
      ReplayingStep(states[j - 1], steps[j - 1], key, Record(request, InProgress), states[i].arrivals);
      StepTouches(states[j - 1], steps[j - 1], key);
    }
  }
}
