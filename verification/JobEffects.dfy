/** What one keyed `job.start` does, as a function of what it finds and of what happens to it:
    its reply, the record it leaves, the unit it launches and how often. `JobDispatch` is the
    program that does it. */
module JobEffects {
  import opened Common
  import opened Register
  import opened JobProtocol

  /** What systemd does with the unit in the meantime. */
  datatype Events = Events(finish: bool, unload: bool)

  /** One inspection of the unit and what ended the wait after it. */
  datatype Poll = Poll(before: Events, unitOk: bool, between: Events, resultOk: bool, wake: Window)

  datatype Attempt = Attempt(canceled: bool, accepted: bool, clean: bool, polls: seq<Poll>)

  datatype Write = Write(outcome: Outcome, closed: bool) {
    predicate Succeeds() {
      outcome.Published? && closed
    }
  }

  datatype Environment = Environment(
    readOk: bool, legacyOk: bool, between: Events, inspectOk: bool, imported: Write,
    prepareOk: bool, recorded: Write, evidence: seq<Poll>, marked: Write, attempts: seq<Attempt>, completed: Write)

  predicate Closes(polls: seq<Poll>) {
    polls != [] && !polls[|polls| - 1].wake.Continue?
  }

  /** The inspection was answered by systemd and by the job directory. */
  predicate Healthy(poll: Poll) {
    poll.unitOk && poll.resultOk
  }

  /** Where a window closes if no inspection ends it before. */
  function Close(polls: seq<Poll>): (n: nat)
    requires Closes(polls)
    ensures n < |polls| && !polls[n].wake.Continue?
    ensures forall i :: 0 <= i < n ==> polls[i].wake.Continue?
  {
    if !polls[0].wake.Continue? then 0 else Close(polls[1..]) + 1
  }

  /** Some inspection in the window is answered. */
  predicate Answers(polls: seq<Poll>)
    requires Closes(polls)
  {
    exists i :: 0 <= i <= Close(polls) && Healthy(polls[i])
  }

  /** Every inspection up to the deadline is answered. */
  predicate Settles(polls: seq<Poll>)
    requires Closes(polls)
  {
    polls[Close(polls)].wake.Deadline? && forall i :: 0 <= i <= Close(polls) ==> Healthy(polls[i])
  }

  /** A dispatch launches up to twice, and every window ends. */
  predicate Ends(env: Environment) {
    Closes(env.evidence) && |env.attempts| == 2 && AllClose(env.attempts)
  }

  predicate AllClose(attempts: seq<Attempt>) {
    forall attempt :: attempt in attempts ==> Closes(attempt.polls)
  }

  /** Writes fail after their rename only where the platform lets them. */
  predicate Admits(p: Platform, env: Environment) {
    var writes := [env.imported, env.recorded, env.marked, env.completed];
    Ends(env) && (!p.syncFaults ==> forall write :: write in writes ==> !write.outcome.Unsynced?)
  }

  datatype Evidence = Accepted | ClearlyAbsent | Indeterminate

  /** The events of some launches of one unit: which of them systemd accepted. */
  function Trace(id: Id, accepted: seq<bool>): seq<Event> {
    if accepted == [] then []
    else
      Trace(id, accepted[..|accepted| - 1])
      + if accepted[|accepted| - 1] then [Launched(id), Started(id)] else [Launched(id)]
  }

  // ----- looking and launching -----

  /** What a window of polls finds: `known` says that the job directory is there, `visible` that
      the unit is loaded or has a result. */
  function Search(polls: seq<Poll>, known: bool, visible: bool): Evidence
    requires Closes(polls)
  {
    if visible && Answers(polls) then Accepted
    else if !visible && known && Settles(polls) then ClearlyAbsent
    else Indeterminate
  }

  /** What is known after a launch, which `taken` says was accepted. */
  function LookAfter(attempt: Attempt, known: bool, visible: bool, taken: bool): Evidence
    requires Closes(attempt.polls)
  {
    if attempt.clean then Accepted else Search(attempt.polls, known, visible || taken)
  }

  datatype Ending = Canceled | Unresolved | Recorded(started: bool)

  /** Which launches were accepted, and how the launch loop ended. */
  datatype Loop = Loop(accepted: seq<bool>, ending: Ending)

  /** The launch loop: a loaded unit is not accepted again, and only a clearly absent one is
      launched another time. */
  function LaunchLoop(attempts: seq<Attempt>, known: bool, visible: bool, loaded: bool): Loop
    requires AllClose(attempts)
  {
    if attempts == [] then Loop([], Recorded(false))
    else if attempts[0].canceled then Loop([], Canceled)
    else
      var taken := attempts[0].accepted && !loaded;
      match LookAfter(attempts[0], known, visible, taken)
      case Accepted => Loop([taken], Recorded(true))
      case Indeterminate => Loop([taken], Unresolved)
      case ClearlyAbsent =>
        var rest := LaunchLoop(attempts[1..], known, false, false);
        Loop([taken] + rest.accepted, rest.ending)
  }

  /** A second launch happens exactly if the first one was not canceled, reported an error, and
      is known to have left no unit, and the call is not canceled then. A start is recorded as
      failed exactly after two such launches. */
  lemma LaunchLoopExactly(env: Environment, known: bool, visible: bool, loaded: bool)
    requires Ends(env) && (loaded ==> visible)
    ensures var result := LaunchLoop(env.attempts, known, visible, loaded);
            var first, second := env.attempts[0], env.attempts[1];
            var absent := known && !visible && !first.canceled && !first.clean && !first.accepted
                && Settles(first.polls);
            && |result.accepted| <= 2
            && (result.accepted == [] <==> first.canceled)
            && (|result.accepted| == 2 <==> absent && !second.canceled)
            && (result.ending == Recorded(false) <==>
                  (absent && !second.canceled && !second.clean && !second.accepted && Settles(second.polls)))
            && (result.ending == Canceled <==> first.canceled || (absent && second.canceled))
            && (result.ending == Recorded(false) ==> result.accepted == [false, false])
            && (true in result.accepted ==> !loaded)
  {
    hide Answers, Settles;
    var first, second := env.attempts[0], env.attempts[1];
    assert env.attempts[1..] == [second];
    LastLaunch(second, known);
  }

  lemma LastLaunch(last: Attempt, known: bool)
    requires Closes(last.polls)
    ensures var result := LaunchLoop([last], known, false, false);
            && result.accepted == (if last.canceled then [] else [last.accepted])
            && (result.ending == Canceled <==> last.canceled)
            && (result.ending == Recorded(false) <==>
                  (known && !last.canceled && !last.clean && !last.accepted && Settles(last.polls)))
  {
    assert [last][1..] == [];
  }

  // ----- what is left behind -----

  /** `id` is the job that `accepted` is about. */
  datatype Effect = Effect(reply: Reply, file: Register<JobRecord>, id: Id, accepted: seq<bool>)

  /** A dispatch that launches nothing. */
  function Quiet(reply: Reply, file: Register<JobRecord>, id: Id): Effect {
    Effect(reply, file, id, [])
  }

  function Complete(record: JobRecord, env: Environment, file: Register<JobRecord>, result: Loop): (effect: Effect)
    ensures effect.id == record.id && effect.accepted == result.accepted
  {
    match result.ending
    case Canceled => Effect(Refused, file, record.id, result.accepted)
    case Unresolved => Effect(Uncertain, file, record.id, result.accepted)
    case Recorded(started) =>
      Effect(if env.completed.Succeeds() then Resolved(record.id, started) else Unpublished(record.id),
             file.Write(record.(status := Completed(started)), env.completed.outcome), record.id, result.accepted)
  }

  /** The mark is written before the first launch, unless it is there. */
  function MarkAndLaunch(record: JobRecord, env: Environment, file: Register<JobRecord>,
                         known: bool, visible: bool, loaded: bool): (effect: Effect)
    requires Ends(env)
    ensures effect.id == record.id
  {
    var marked := record.(attempted := true);
    if record.attempted then Complete(marked, env, file, LaunchLoop(env.attempts, known, visible, loaded))
    else if !env.marked.Succeeds() then Quiet(Refused, file.Write(marked, env.marked.outcome), record.id)
    else
      Complete(marked, env, file.Write(marked, env.marked.outcome), LaunchLoop(env.attempts, known, visible, loaded))
  }

  /** A record in progress whose launch was attempted is searched for before anything else. */
  function Reconcile(record: JobRecord, env: Environment, file: Register<JobRecord>,
                     known: bool, visible: bool, loaded: bool): (effect: Effect)
    requires Ends(env)
    ensures effect.id == record.id
  {
    if !known then Quiet(Uncertain, file, record.id)
    else if !record.attempted then MarkAndLaunch(record, env, file, known, visible, loaded)
    else
      match Search(env.evidence, known, visible)
      case Accepted => Complete(record, env, file, Loop([], Recorded(true)))
      case Indeterminate => Quiet(Uncertain, file, record.id)
      case ClearlyAbsent => MarkAndLaunch(record, env, file, known, false, false)
  }

  /** A fresh job is recorded before it is marked. */
  function ExecuteNew(request: nat, id: Id, env: Environment, file: Register<JobRecord>, visible: bool,
                      loaded: bool): (effect: Effect)
    requires Ends(env)
    ensures effect.id == id
  {
    var record := JobRecord(request, id, false, InProgress);
    if !env.prepareOk then Quiet(Refused, file, id)
    else if !env.recorded.Succeeds() then Quiet(Refused, file.Write(record, env.recorded.outcome), id)
    else MarkAndLaunch(record, env, file.Write(record, env.recorded.outcome), true, visible, loaded)
  }

  /** A job of an older version is taken over for its own request only; if its unit is seen at
      once the start is recorded without more ado. */
  function Import(request: nat, id: Id, env: Environment, file: Register<JobRecord>,
                  specs: Specs, visible: bool): (effect: Effect)
    requires Ends(env)
    ensures effect.id == id
  {
    var record := JobRecord(request, id, true, InProgress);
    if id !in specs || specs[id].None? then Quiet(Uncertain, file, id)
    else if specs[id] != Some(request) then Quiet(Conflict, file, id)
    else if !env.inspectOk then Quiet(Uncertain, file, id)
    else if visible then
      Quiet(if env.imported.Succeeds() then Resolved(id, true) else Refused,
            file.Write(record.(status := Completed(true)), env.imported.outcome), id)
    else if !env.imported.Succeeds() then Quiet(Refused, file.Write(record, env.imported.outcome), id)
    else Reconcile(record, env, file.Write(record, env.imported.outcome), true, false, false)
  }

  /** Everything a dispatch may look at. */
  datatype Store = Store(
    file: Register<JobRecord>, legacy: Option<Id>, specs: Specs, results: set<Id>, units: set<Id>, next: Id)
  {
    predicate Visible(id: Id) {
      Seen(units, results, id)
    }
  }

  function Dispatch(request: nat, env: Environment, store: Store): Effect
    requires Ends(env)
  {
    if !env.readOk then Quiet(Refused, store.file, 0)
    else if store.file.visible.Some? then
      var record := store.file.visible.value;
      if record.request != request then Quiet(Conflict, store.file, record.id)
      else if record.status.Completed? then Quiet(Replayed(record.id, record.status.started), store.file, record.id)
      else
        Reconcile(record, env, store.file, record.id in store.specs, store.Visible(record.id), record.id in store.units)
    else if !env.legacyOk then Quiet(Refused, store.file, 0)
    else if store.legacy.Some? then
      Import(request, store.legacy.value, env, store.file, store.specs, store.Visible(store.legacy.value))
    else ExecuteNew(request, store.next, env, store.file, store.Visible(store.next), store.next in store.units)
  }

  /** The dispatch draws an id and prepares a job directory for it. */
  predicate Allocates(env: Environment, store: Store) {
    env.readOk && store.file.visible.None? && env.legacyOk && store.legacy.None? && env.prepareOk
  }

  /** The job directories after a dispatch: a job whose record could not be written is gone. */
  function SpecsAfter(request: nat, env: Environment, store: Store): Specs {
    if !Allocates(env, store) then store.specs
    else if !env.recorded.Succeeds() then store.specs - {store.next}
    else store.specs[store.next := Some(request)]
  }

  // ----- what follows -----

  /** A dispatch launches at most twice; one that launches leaves a record of the launched job,
      for its own request, that says so. */
  lemma LaunchesLeaveTheirRecord(request: nat, env: Environment, store: Store)
    requires Ends(env)
    ensures var effect := Dispatch(request, env, store);
            && |effect.accepted| <= 2
            && (effect.accepted != [] ==> Leaves(effect.file, request, effect.id))
            && (effect.accepted != [] ==> effect.id in SpecsAfter(request, env, store))
  {
    hide LaunchLoop, Search;
    forall known, visible, loaded | loaded ==> visible
      ensures |LaunchLoop(env.attempts, known, visible, loaded).accepted| <= 2
    {
      LaunchLoopExactly(env, known, visible, loaded);
    }
  }

  predicate Leaves(file: Register<JobRecord>, request: nat, id: Id) {
    && file.visible.Some?
    && var record := file.visible.value;
       record.id == id && record.request == request && record.attempted
  }

  /** A start that is reported as failed was refused twice, and its unit could not be seen. */
  lemma FailureMeansTwoRefusals(request: nat, env: Environment, store: Store)
    requires Ends(env) && Dispatch(request, env, store).reply == Resolved(Dispatch(request, env, store).id, false)
    ensures var effect := Dispatch(request, env, store);
            effect.accepted == [false, false] && !store.Visible(effect.id)
  {
    hide LaunchLoop, Answers, Settles;
    forall known, visible, loaded | loaded ==> visible
      ensures var loop := LaunchLoop(env.attempts, known, visible, loaded);
              loop.ending == Recorded(false) ==> loop.accepted == [false, false] && !visible
    {
      LaunchLoopExactly(env, known, visible, loaded);
    }
  }

  /** Whatever a dispatch did once it launched - answered or not, recorded its end or not - a
      later one whose look at the unit is answered launches nothing, as long as the unit can be
      seen: it gives the same request that very job, and refuses any other. */
  lemma RetryLaunchesNothing(request: nat, env: Environment, store: Store, retry: nat, envRetry: Environment,
                             later: Store)
    requires Ends(env) && Ends(envRetry) && envRetry.readOk && Answers(envRetry.evidence)
    requires Dispatch(request, env, store).accepted != []
    requires later.file == Dispatch(request, env, store).file
    requires var id := Dispatch(request, env, store).id; id in later.specs && later.Visible(id)
    ensures var effect := Dispatch(retry, envRetry, later);
            && effect.accepted == []
            && if retry != request then effect.reply == Conflict && effect.file == later.file
               else Names(effect.reply, Dispatch(request, env, store).id)
  {
    LaunchesLeaveTheirRecord(request, env, store);
    hide LaunchLoop, ExecuteNew, Import, MarkAndLaunch;
  }

  /** A reply that gives the caller the job with this id. */
  predicate Names(reply: Reply, id: Id) {
    match reply
    case Replayed(other, _) => other == id
    case Resolved(other, started) => other == id && started
    case Unpublished(other) => other == id
    case _ => false
  }
}
