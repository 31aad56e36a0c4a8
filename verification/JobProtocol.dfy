/** Keyed `job.start` for one key, as a state machine over its dispatches, the systemd units
    it launches, crashes and power losses.

    `MutationProtocol.OneCallerPerKey` is why one dispatch at a time is enough for one key.
    Assumed of systemd: a unit name that is loaded is not accepted again; an accepted unit
    runs its body, writes `result.json` before it is unloaded, and otherwise stays loaded. */
module JobProtocol {
  import opened Common
  import opened Register

  type Id = nat

  /** A completed record says whether the unit was found, or never existed. */
  datatype Status = InProgress | Completed(started: bool)

  datatype JobRecord = JobRecord(request: nat, id: Id, attempted: bool, status: Status)

  /** What may go wrong below the program: syncing the directory after the rename of a state
      file may fail, and a power loss may take loaded units with it. */
  datatype Platform = Platform(syncFaults: bool, unitLoss: bool) {
    predicate Sound() {
      !syncFaults && !unitLoss
    }
  }

  datatype Reply =
    | Refused
    | Conflict
    | Uncertain
    | Replayed(id: Id, started: bool)
    | Resolved(id: Id, started: bool)
    | Unpublished(id: Id)

  /** `attempt` is the number of launches this dispatch has made so far. */
  datatype Pc =
    | Idle
    | Reading
    | Importing
    | ImportingResult(record: JobRecord, loaded: bool)
    | ImportWriting(record: JobRecord)
    | Preparing
    | Recording(record: JobRecord)
    | Discarding(record: JobRecord)
    | Reconciling(record: JobRecord)
    | Marking(record: JobRecord)
    | Launching(record: JobRecord, attempt: nat)
    | PollingUnit(record: JobRecord, attempt: nat, failed: bool)
    | PollingResult(record: JobRecord, attempt: nat, failed: bool, loaded: bool)
    | Completing(record: JobRecord, started: bool)
    | Done(reply: Reply)

  datatype Event = Launched(id: Id) | Started(id: Id) | Released

  /** A unit that was started can be seen: it is loaded, or it has left a result. */
  predicate Seen(units: set<Id>, results: set<Id>, id: Id) {
    id in units || id in results
  }

  /** The specifications of the job directories: the request a job rebuilds to, or none if its
      request cannot be rebuilt. */
  type Specs = map<Id, Option<nat>>

  datatype State = State(
    pc: Pc,
    request: nat,
    file: Register<JobRecord>,
    legacy: Option<Id>,
    specs: Specs,
    results: set<Id>,
    units: set<Id>,
    next: Id,
    forgotten: set<Id>,
    log: seq<Event>)
  {
    predicate Visible(id: Id) {
      Seen(units, results, id)
    }
  }

  datatype Window = Continue | Deadline | Cancel

  /** What the environment decides in one step of a dispatch. */
  datatype Choice = Choice(ok: bool, outcome: Outcome, closed: bool, accepted: bool, window: Window) {
    predicate Written() {
      outcome.Published? && closed
    }
  }

  datatype Step =
    | Arrive(request: nat)
    | Work(choice: Choice)
    | Return
    | Finish(id: Id)
    | Unload(id: Id)
    | Prune
    | Forget(id: Id, reset: bool)
    | Crash(powerLoss: bool, contents: Option<JobRecord>, specs: Specs)

  predicate Enabled(p: Platform, s: State, step: Step) {
    match step
    case Arrive(_) => s.pc.Idle?
    case Work(choice) =>
      && !s.pc.Idle? && !s.pc.Done?
      && (choice.outcome.Unsynced? ==> p.syncFaults)
      && (s.pc.Launching? && choice.accepted ==> s.pc.record.id !in s.units)
    case Return => s.pc.Done?
    case Finish(id) => id in s.units
    case Unload(id) => id in s.units && id in s.results
    case Prune => s.pc.Idle? && s.file.visible.Some? && s.file.visible.value.status.Completed?
    case Forget(id, _) => s.pc.Idle? && s.Visible(id)
    case Crash(powerLoss, contents, specs) =>
      // Unlinked job directories may come back after a power loss.
      && (powerLoss ==> contents in s.file.possible)
      && (forall id: Id :: id in s.specs ==> id in specs && specs[id] == s.specs[id])
      && (forall id :: id in specs ==> id < s.next)
  }

  function Apply(s: State, step: Step, p: Platform): State
    requires Enabled(p, s, step)
  {
    match step
    case Arrive(request) => s.(pc := Reading, request := request)
    case Work(choice) => Advance(s, choice)
    case Return => s.(pc := Idle)
    case Finish(id) => s.(results := s.results + {id})
    case Unload(id) => s.(units := s.units - {id})
    case Prune => s.(file := s.file.Unlink(), log := s.log + [Released])
    case Forget(id, reset) =>
      var mine := s.file.visible.Some? && s.file.visible.value.id == id;
      s.(legacy := if s.legacy == Some(id) then None else s.legacy,
         file := if mine then Missing() else s.file,
         specs := s.specs - {id}, results := s.results - {id},
         units := if reset then s.units - {id} else s.units, forgotten := s.forgotten + {id},
         log := if mine || s.legacy == Some(id) then s.log + [Released] else s.log)
    case Crash(powerLoss, contents, specs) =>
      s.(pc := Idle, specs := specs,
         file := if powerLoss then s.file.Recover(contents) else s.file,
         units := if powerLoss && p.unitLoss then {} else s.units)
  }

  /** The state after a durable write of `record` that got as far as the choice says. */
  function Written(s: State, record: JobRecord, choice: Choice, then': Pc, otherwise: Pc): State {
    s.(file := s.file.Write(record, choice.outcome), pc := if choice.Written() then then' else otherwise)
  }

  /** One step of the dispatch in progress. */
  function Advance(s: State, choice: Choice): State
    requires !s.pc.Idle? && !s.pc.Done?
  {
    match s.pc
    case Reading =>
      if !choice.ok then s.(pc := Done(Refused))
      else if s.file.visible.None? then s.(pc := Importing)
      else s.(pc := Found(s, s.file.visible.value))
    case Importing =>
      if !choice.ok then s.(pc := Done(Refused))
      else if s.legacy.None? then s.(pc := Preparing)
      else if s.legacy.value !in s.specs || s.specs[s.legacy.value].None? then s.(pc := Done(Uncertain))
      else if s.specs[s.legacy.value] != Some(s.request) then s.(pc := Done(Conflict))
      else s.(pc := ImportingResult(JobRecord(s.request, s.legacy.value, true, InProgress), s.legacy.value in s.units))
    case ImportingResult(record, loaded) =>
      if !choice.ok then s.(pc := Done(Uncertain))
      else if loaded || record.id in s.results then
        Written(s, record.(status := Completed(true)), choice, Done(Resolved(record.id, true)), Done(Refused))
      else s.(pc := ImportWriting(record))
    case ImportWriting(record) => Written(s, record, choice, Reconciling(record), Done(Refused))
    case Preparing =>
      if !choice.ok then s.(pc := Done(Refused))
      else
        var record := JobRecord(s.request, s.next, false, InProgress);
        s.(next := s.next + 1, specs := s.specs[s.next := Some(s.request)], pc := Recording(record))
    case Recording(record) => Written(s, record, choice, Marking(record), Discarding(record))
    case Discarding(record) => s.(specs := s.specs - {record.id}, pc := Done(Refused))
    case Reconciling(record) =>
      if record.id !in s.specs then s.(pc := Done(Uncertain))
      else if record.attempted then s.(pc := PollingUnit(record, 0, false))
      else s.(pc := Marking(record))
    case Marking(record) =>
      if record.attempted then s.(pc := Launching(record, 0))
      else Written(s, record.(attempted := true), choice, Launching(record.(attempted := true), 0), Done(Refused))
    case Launching(record, attempt) =>
      if !choice.ok then s.(pc := Done(Refused))
      else
        s.(units := if choice.accepted then s.units + {record.id} else s.units,
           log := if choice.accepted then s.log + [Launched(record.id)] + [Started(record.id)]
               else s.log + [Launched(record.id)],
           pc := if choice.closed then Completing(record, true) else PollingUnit(record, attempt + 1, false))
    case PollingUnit(record, attempt, failed) =>
      if choice.ok then s.(pc := PollingResult(record, attempt, failed, record.id in s.units))
      else s.(pc := Waiting(record, attempt, true, false, choice.window))
    case PollingResult(record, attempt, failed, loaded) =>
      if choice.ok && (loaded || record.id in s.results) then s.(pc := Completing(record, true))
      else
        var absent := choice.ok && record.id in s.specs;
        s.(pc := Waiting(record, attempt, failed || !absent, absent, choice.window))
    case Completing(record, started) =>
      Written(s, record.(status := Completed(started)), choice, Done(Resolved(record.id, started)),
              Done(Unpublished(record.id)))
    case _ => s
  }

  /** Where an existing record leads. */
  function Found(s: State, record: JobRecord): Pc {
    if record.request != s.request then Done(Conflict)
    else if record.status.Completed? then Done(Replayed(record.id, record.status.started))
    else Reconciling(record)
  }

  /** The end of one poll that did not accept: poll again, or settle the evidence window. */
  function Waiting(record: JobRecord, attempt: nat, failed: bool, absent: bool, window: Window): Pc {
    match window
    case Continue => PollingUnit(record, attempt, failed)
    case Cancel => Done(Uncertain)
    case Deadline =>
      if failed || !absent then Done(Uncertain)
      else if attempt == 0 then Marking(record)
      else if attempt < 2 then Launching(record, attempt)
      else Completing(record, false)
  }

  /** The bodies started under one unit name, ever. */
  function Starts(log: seq<Event>, id: Id): nat {
    if log == [] then 0 else Starts(log[..|log| - 1], id) + if log[|log| - 1] == Started(id) then 1 else 0
  }

  /** The launches issued since the key was last pruned or forgotten. */
  function Launches(log: seq<Event>): seq<Id> {
    if log == [] then []
    else
      var earlier, last := log[..|log| - 1], log[|log| - 1];
      match last
      case Launched(id) => Launches(earlier) + [id]
      case Started(_) => Launches(earlier)
      case Released => []
  }

  /** The bodies started since the key was last pruned or forgotten. */
  function Begun(log: seq<Event>): seq<Id> {
    if log == [] then []
    else
      var earlier, last := log[..|log| - 1], log[|log| - 1];
      match last
      case Started(id) => Begun(earlier) + [id]
      case Launched(_) => Begun(earlier)
      case Released => []
  }

  lemma BegunAfter(log: seq<Event>, event: Event)
    ensures Begun(log + [event]) ==
            if event.Started? then Begun(log) + [event.id] else if event.Launched? then Begun(log) else []
  {
    assert (log + [event])[..|log|] == log;
  }

  lemma LogAfter(log: seq<Event>, event: Event, id: Id)
    ensures Starts(log + [event], id) == Starts(log, id) + if event == Started(id) then 1 else 0
    ensures Launches(log + [event]) ==
      if event.Launched? then Launches(log) + [event.id] else if event.Started? then Launches(log) else []
  {
    assert (log + [event])[..|log|] == log;
  }

  lemma {:induction false} NeverStarted(log: seq<Event>, id: Id)
    requires Started(id) !in log
    ensures Starts(log, id) == 0
  {
    if log != [] { NeverStarted(log[..|log| - 1], id); }
  }

  // ----- what a run may be spared -----

  /** No durable write of this step stops between its rename and its directory sync. */
  predicate Synced(step: Step) {
    step.Work? ==> !step.choice.outcome.Unsynced?
  }

  /** No power loss takes back a launch mark: a marked record may only come back as the same job,
      marked as well, and where none is marked nothing comes back in progress. */
  predicate KeepsMark(visible: Option<JobRecord>, contents: Option<JobRecord>) {
    || contents == visible
    || (Marked(visible) && Marked(contents) && contents.value.id == visible.value.id)
    || (!Marked(visible) && (contents.Some? ==> contents.value.status.Completed?))
  }

  predicate Marked(file: Option<JobRecord>) {
    file.Some? && file.value.attempted
  }

  predicate Restores(s: State, step: Step) {
    step.Crash? && step.powerLoss ==> KeepsMark(s.file.visible, step.contents)
  }

  /** No power loss brings back a failed start that was not visible. */
  predicate RevivesNoFailure(s: State, step: Step) {
    step.Crash? && step.powerLoss ==> IsFailed(step.contents) ==> step.contents == s.file.visible
  }

  predicate IsFailed(file: Option<JobRecord>) {
    file.Some? && file.value.status == Completed(false)
  }

  /** If this step is a power loss that takes units with it, every loaded one has ended. */
  predicate Spares(p: Platform, s: State, step: Step) {
    step.Crash? && step.powerLoss && p.unitLoss ==> s.units <= s.results
  }

  // ----- the record comes first -----

  /** Where the run of one key may begin: nothing recorded yet, perhaps a mapping left by an
      older version whose unit, if it ever started, is still visible. */
  ghost predicate Init(s: State) {
    && s.pc.Idle? && s.file == Missing() && s.forgotten == {}
    && (forall id: Id :: id in s.specs || id in s.units || id in s.results || s.legacy == Some(id) ==> id < s.next)
    && s.log == (if s.legacy.Some? && s.Visible(s.legacy.value) then [Started(s.legacy.value)] else [])
  }

  predicate Holds(pc: Pc) {
    pc.Reconciling? || pc.Marking? || pc.Launching? || pc.PollingUnit? || pc.PollingResult? || pc.Completing?
  }

  /** While writes are synced a visible record is the only thing the file can hold, and next to
      a missing one only completed records that were pruned can come back. */
  ghost predicate Anchored(s: State) {
    && (s.file.visible.Some? ==> s.file.possible == {s.file.visible})
    && (s.file.visible.None? ==> forall c :: c in s.file.possible && c.Some? ==> c.value.status.Completed?)
    && s.file.Valid()
  }

  ghost predicate Bounded(s: State) {
    && (forall id: Id :: id in s.specs || id in s.units || id in s.results || id in s.forgotten ==> id < s.next)
    && (s.legacy.Some? ==> s.legacy.value < s.next)
    && (forall c :: c in s.file.possible && c.Some? ==> c.value.id < s.next)
    && (forall e :: e in s.log && !e.Released? ==> e.id < s.next)
  }

  /** What the dispatch in progress knows about the record file. */
  ghost predicate Aware(s: State) {
    match s.pc
    case Importing => s.file.visible.None?
    case ImportingResult(record, _) =>
      s.file.visible.None? && record.attempted && s.legacy == Some(record.id) && record.status.InProgress?
    case ImportWriting(record) =>
      s.file.visible.None? && record.attempted && s.legacy == Some(record.id) && record.status.InProgress?
    case Preparing => s.file.visible.None? && s.legacy.None?
    case Recording(record) =>
      && s.file.visible.None? && s.legacy.None? && !record.attempted && record.status.InProgress?
      && record.id < s.next && record.id !in s.units + s.results + s.forgotten && Starts(s.log, record.id) == 0
    case Discarding(_) => s.file.visible.None? || s.file.visible == Some(s.pc.record)
    case Reconciling(record) => s.file.visible == Some(record) && record.status.InProgress?
    case Marking(record) => s.file.visible == Some(record) && record.status.InProgress?
    case Launching(record, attempt) =>
      s.file.visible == Some(record) && record.status.InProgress? && record.attempted && attempt < 2
    case PollingUnit(record, attempt, _) =>
      s.file.visible == Some(record) && record.status.InProgress? && record.attempted && attempt <= 2
    case PollingResult(record, attempt, _, _) =>
      s.file.visible == Some(record) && record.status.InProgress? && record.attempted && attempt <= 2
    case Completing(record, _) => s.file.visible == Some(record) && record.status.InProgress? && record.attempted
    case _ => true
  }

  /** Every launch since the key was last released names the id of the visible record, and
      that record says that a launch was attempted. */
  ghost predicate Named(s: State) {
    forall id :: id in Launches(s.log) ==>
        s.file.visible.Some? && s.file.visible.value.id == id && s.file.visible.value.attempted
  }

  /** A key with a legacy mapping is only ever bound to the mapped job. */
  ghost predicate Migrated(s: State) {
    s.legacy.Some? ==> forall c :: c in s.file.possible && c.Some? ==> c.value.id == s.legacy.value
  }

  ghost predicate Recorded(s: State) {
    s.file.Valid() && Bounded(s) && Aware(s) && Named(s) && Migrated(s)
  }

  lemma RecordedLook(p: Platform, s: State, choice: Choice)
    requires Recorded(s) && Enabled(p, s, Work(choice))
    requires s.pc.Reading? || s.pc.Importing? || s.pc.Reconciling? || s.pc.Discarding?
    ensures Recorded(Advance(s, choice))
  {
    hide Launches, Starts;
  }

  lemma RecordedImport(p: Platform, s: State, choice: Choice)
    requires Recorded(s) && Enabled(p, s, Work(choice))
    requires s.pc.ImportingResult? || s.pc.ImportWriting?
    ensures Recorded(Advance(s, choice))
  {
    hide Launches, Starts;
  }

  lemma RecordedPrepare(p: Platform, s: State, choice: Choice)
    requires Recorded(s) && Enabled(p, s, Work(choice))
    requires s.pc.Preparing?
    ensures Recorded(Advance(s, choice))
  {
    if choice.ok {
      NeverStarted(s.log, s.next);
      assert s.next !in s.units && s.next !in s.results && s.next !in s.forgotten;
    }
  }

  lemma RecordedWrite(p: Platform, s: State, choice: Choice)
    requires Recorded(s) && Enabled(p, s, Work(choice))
    requires s.pc.Recording? || s.pc.Marking? || s.pc.Completing?
    ensures Recorded(Advance(s, choice))
  {
    hide Launches, Starts;
  }

  lemma LaunchedNames(log: seq<Event>, id: Id)
    ensures forall x :: x in Launches(log + [Launched(id)]) ==> x in Launches(log) || x == id
    ensures forall x :: x in Launches(log + [Launched(id)] + [Started(id)]) ==> x in Launches(log) || x == id
  {
    hide Launches;
    LogAfter(log, Launched(id), 0);
    LogAfter(log + [Launched(id)], Started(id), 0);
  }

  lemma NamedLaunch(s: State, choice: Choice)
    requires s.pc.Launching? && s.file.visible == Some(s.pc.record) && s.pc.record.attempted && Named(s)
    ensures Named(Advance(s, choice))
  {
    hide Launches, Advance;
    WorkLog(s, choice);
    LaunchedNames(s.log, s.pc.record.id);
  }

  lemma RecordedLaunch(p: Platform, s: State, choice: Choice)
    requires Recorded(s) && Enabled(p, s, Work(choice))
    requires s.pc.Launching?
    ensures Recorded(Advance(s, choice))
  {
    hide Launches, Starts;
    assert Aware(s);
    NamedLaunch(s, choice);
  }

  lemma RecordedPoll(p: Platform, s: State, choice: Choice)
    requires Recorded(s) && Enabled(p, s, Work(choice))
    requires s.pc.PollingUnit? || s.pc.PollingResult?
    ensures Recorded(Advance(s, choice))
  {
    hide Launches, Starts;
  }

  lemma RecordedWork(p: Platform, s: State, choice: Choice)
    requires Recorded(s) && Enabled(p, s, Work(choice))
    ensures Recorded(Advance(s, choice))
  {
    match s.pc
    case Reading => RecordedLook(p, s, choice);
    case Importing => RecordedLook(p, s, choice);
    case Reconciling(_) => RecordedLook(p, s, choice);
    case Discarding(_) => RecordedLook(p, s, choice);
    case ImportingResult(_, _) => RecordedImport(p, s, choice);
    case ImportWriting(_) => RecordedImport(p, s, choice);
    case Preparing => RecordedPrepare(p, s, choice);
    case Recording(_) => RecordedWrite(p, s, choice);
    case Marking(_) => RecordedWrite(p, s, choice);
    case Completing(_, _) => RecordedWrite(p, s, choice);
    case Launching(_, _) => RecordedLaunch(p, s, choice);
    case PollingUnit(_, _, _) => RecordedPoll(p, s, choice);
    case PollingResult(_, _, _, _) => RecordedPoll(p, s, choice);
    case Idle =>
    case Done(_) =>
  }

  lemma RecordedRelease(p: Platform, s: State, step: Step)
    requires Recorded(s) && Enabled(p, s, step) && (step.Prune? || step.Forget?)
    ensures Recorded(Apply(s, step, p))
  {
    hide Launches, Advance;
    LogAfter(s.log, Released, 0);
  }

  lemma RecordedElsewhere(p: Platform, s: State, step: Step)
    requires Restores(s, step) && Recorded(s) && Enabled(p, s, step) && !(step.Work? || step.Prune? || step.Forget?)
    ensures Recorded(Apply(s, step, p))
  {
    hide Launches, Advance;
  }

  lemma RecordedStep(p: Platform, s: State, step: Step)
    requires Restores(s, step) && Recorded(s) && Enabled(p, s, step)
    ensures Recorded(Apply(s, step, p))
  {
    hide Advance, Recorded, Restores;
    match step
    case Work(choice) => RecordedWork(p, s, choice);
    case Prune => RecordedRelease(p, s, step);
    case Forget(_, _) => RecordedRelease(p, s, step);
    case _ => RecordedElsewhere(p, s, step);
  }

  /** While writes are synced, no power loss takes back a launch mark. */
  lemma AnchoredRestores(p: Platform, s: State, step: Step)
    requires Anchored(s) && Enabled(p, s, step)
    ensures Restores(s, step)
  {
  }

  lemma AnchoredStep(p: Platform, s: State, step: Step)
    requires Synced(step) && Anchored(s) && Enabled(p, s, step)
    ensures Anchored(Apply(s, step, p))
  {
    if step.Work? {
      AnchoredWork(s, step.choice);
    } else {
      hide Advance;
    }
  }

  lemma AnchoredWork(s: State, choice: Choice)
    requires !choice.outcome.Unsynced? && Anchored(s) && !s.pc.Idle? && !s.pc.Done?
    ensures Anchored(Advance(s, choice))
  {
    var t := Advance(s, choice);
    assert t.file == s.file || (t.file.visible.Some? && t.file.possible == {t.file.visible});
    hide Advance;
  }

  // ----- the body runs once -----

  /** A name that some later launch may still use. */
  ghost predicate Live(s: State, id: Id) {
    || s.legacy == Some(id)
    || (s.file.visible.Some? && s.file.visible.value.id == id && s.file.visible.value.status.InProgress?)
    || (s.pc.Recording? && s.pc.record.id == id)
  }

  /** A started unit can be seen until it is forgotten, and forgotten names are out of use. */
  ghost predicate Tracked(s: State, id: Id) {
    && Starts(s.log, id) <= 1
    && (Starts(s.log, id) == 1 ==> s.Visible(id) || id in s.forgotten)
    && (Live(s, id) ==> id !in s.forgotten)
  }

  /** A record without a launch mark excludes an earlier start. */
  ghost predicate Unstarted(s: State) {
    s.file.visible.Some? && s.file.visible.value.status.InProgress? && !s.file.visible.value.attempted ==>
      Starts(s.log, s.file.visible.value.id) == 0
  }

  /** A forgotten job whose record has come back can only stay what it is. */
  ghost predicate Fixed(s: State) {
    s.file.visible.Some? && s.file.visible.value.id in s.forgotten ==> s.file.possible == {s.file.visible}
  }

  ghost predicate Searched(s: State) {
    match s.pc
    case ImportingResult(record, loaded) => !loaded && Starts(s.log, record.id) == 1 ==> record.id in s.results
    case Recording(record) => Starts(s.log, record.id) == 0
    case Marking(record) => Starts(s.log, record.id) == 0
    case Launching(record, _) => Starts(s.log, record.id) == 0
    case PollingResult(record, _, _, loaded) => !loaded && Starts(s.log, record.id) == 1 ==> record.id in s.results
    case Completing(record, started) => !started ==> Starts(s.log, record.id) == 0
    case _ => true
  }

  ghost predicate Once(s: State) {
    (forall id :: Tracked(s, id)) && Unstarted(s) && Searched(s) && Fixed(s)
  }

  lemma WorkLog(s: State, choice: Choice)
    requires !s.pc.Idle? && !s.pc.Done?
    ensures s.pc.Launching? ==> Advance(s, choice).file == s.file
    ensures Advance(s, choice).log ==
      if !(s.pc.Launching? && choice.ok) then s.log
      else if choice.accepted then s.log + [Launched(s.pc.record.id)] + [Started(s.pc.record.id)]
          else s.log + [Launched(s.pc.record.id)]
  {
  }

  /** Only a launch touches the units or the log; no step of a dispatch forgets anything. */
  lemma WorkKeeps(s: State, choice: Choice)
    requires !s.pc.Idle? && !s.pc.Done? && !s.pc.Launching?
    ensures var t := Advance(s, choice);
            t.units == s.units && t.results == s.results && t.forgotten == s.forgotten && t.log == s.log
            && t.legacy == s.legacy
  {
    hide Found, Waiting;
  }

  predicate IsStart(s: State, step: Step, id: Id) {
    step.Work? && s.pc.Launching? && step.choice.ok && step.choice.accepted && s.pc.record.id == id
  }

  lemma StartsStep(p: Platform, s: State, step: Step, id: Id)
    requires Enabled(p, s, step)
    ensures Starts(Apply(s, step, p).log, id) == Starts(s.log, id) + if IsStart(s, step, id) then 1 else 0
  {
    hide Advance;
    if step.Work? {
      WorkLog(s, step.choice);
      if s.pc.Launching? {
        LogAfter(s.log, Launched(s.pc.record.id), id);
        LogAfter(s.log + [Launched(s.pc.record.id)], Started(s.pc.record.id), id);
      }
    } else {
      LogAfter(s.log, Released, id);
    }
  }

  /** A launch starts the body only of a unit that was searched for and never started. */
  lemma TrackedLaunch(p: Platform, s: State, choice: Choice, id: Id)
    requires Recorded(s) && Once(s) && Enabled(p, s, Work(choice)) && s.pc.Launching?
    ensures Tracked(Advance(s, choice), id)
  {
    assert Tracked(s, id) && Searched(s);
    hide Recorded, Once, Starts;
    StartsStep(p, s, Work(choice), id);
    LaunchKeeps(s, choice);
    hide Advance;
  }

  /** A launch changes no record and forgets nothing. */
  lemma LaunchKeeps(s: State, choice: Choice)
    requires s.pc.Launching?
    ensures var t := Advance(s, choice);
            && t.file == s.file && t.results == s.results && t.forgotten == s.forgotten && t.legacy == s.legacy
            && !t.pc.Recording?
            && t.units == if choice.ok && choice.accepted then s.units + {s.pc.record.id} else s.units
  {
  }

  lemma HoldingKeepsId(s: State, choice: Choice)
    requires Aware(s) && Holds(s.pc)
    ensures var t := Advance(s, choice);
            !t.pc.Recording? && t.file.visible.Some? && t.file.visible.value.id == s.pc.record.id
  {
  }

  lemma LiveWork(p: Platform, s: State, choice: Choice, id: Id)
    requires Recorded(s) && Enabled(p, s, Work(choice)) && Live(Advance(s, choice), id) && !s.pc.Launching?
    ensures Live(s, id) || (s.pc.Preparing? && id == s.next)
  {
    assert Aware(s);
    WorkKeeps(s, choice);
    hide Recorded;
    if Holds(s.pc) {
      HoldingKeepsId(s, choice);
      hide Advance;
    }
  }

  /** No other step of a dispatch starts a body or brings a forgotten name back to use. */
  lemma TrackedWork(p: Platform, s: State, choice: Choice, id: Id)
    requires Recorded(s) && Once(s) && Enabled(p, s, Work(choice))
    ensures Tracked(Advance(s, choice), id)
  {
    if s.pc.Launching? {
      TrackedLaunch(p, s, choice, id);
    } else {
      assert Tracked(s, id) && Tracked(s, s.next) && Bounded(s);
      hide Recorded, Once, Starts, Live;
      WorkKeeps(s, choice);
      if Live(Advance(s, choice), id) { LiveWork(p, s, choice, id); }
      hide Advance;
    }
  }

  lemma UnstartedWork(p: Platform, s: State, choice: Choice)
    requires Recorded(s) && Once(s) && Enabled(p, s, Work(choice))
    ensures Unstarted(Advance(s, choice))
  {
    assert Aware(s) && Searched(s) && Unstarted(s);
    if s.pc.Launching? {
      LaunchKeeps(s, choice);
      hide Advance;
    } else {
      WorkKeeps(s, choice);
    }
    hide Recorded, Once, Starts, Waiting;
  }

  lemma FixedWork(p: Platform, s: State, choice: Choice)
    requires Recorded(s) && Once(s) && Enabled(p, s, Work(choice))
    ensures Fixed(Advance(s, choice))
  {
    assert Aware(s) && Fixed(s);
    if s.pc.Launching? {
      LaunchKeeps(s, choice);
      hide Advance;
    } else {
      assert IdOf(s.pc).Some? ==> Tracked(s, IdOf(s.pc).value);
      WorkKeeps(s, choice);
      WorkWrites(s, choice);
      hide Advance;
    }
    hide Recorded, Once, Starts, Tracked;
  }

  /** A step of a dispatch leaves the record alone or writes one of the job it works on. */
  lemma WorkWrites(s: State, choice: Choice)
    requires !s.pc.Idle? && !s.pc.Done?
    ensures var t := Advance(s, choice);
            || t.file == s.file
            || (t.file.visible.Some? && Some(t.file.visible.value.id) == IdOf(s.pc) && !s.pc.Discarding?)
  {
  }

  /** Polls that see neither the unit nor a result leave only units that never started. */
  lemma SearchedPoll(p: Platform, s: State, choice: Choice)
    requires Recorded(s) && Once(s) && Enabled(p, s, Work(choice)) && (s.pc.PollingUnit? || s.pc.PollingResult?)
    ensures Searched(Advance(s, choice))
  {
    assert Tracked(s, s.pc.record.id) && Live(s, s.pc.record.id);
    hide Named, Starts, Bounded, Migrated;
  }

  lemma SearchedStart(p: Platform, s: State, choice: Choice)
    requires Recorded(s) && Once(s) && Enabled(p, s, Work(choice))
    requires s.pc.Preparing? || s.pc.Importing? || s.pc.ImportingResult?
    ensures Searched(Advance(s, choice))
  {
    if s.pc.Preparing? {
      NeverStarted(s.log, s.next);
    } else if s.pc.Importing? {
      assert s.legacy.Some? ==> Tracked(s, s.legacy.value);
    }
    hide Named, Starts;
  }

  lemma SearchedWork(p: Platform, s: State, choice: Choice)
    requires Recorded(s) && Once(s) && Enabled(p, s, Work(choice))
    ensures Searched(Advance(s, choice))
  {
    if s.pc.PollingUnit? || s.pc.PollingResult? {
      SearchedPoll(p, s, choice);
    } else if s.pc.Preparing? || s.pc.Importing? || s.pc.ImportingResult? {
      SearchedStart(p, s, choice);
    } else {
      assert Aware(s) && Unstarted(s) && Searched(s);
      hide Recorded, Once, Starts, Waiting;
      if !s.pc.Launching? { WorkKeeps(s, choice); }
    }
  }

  lemma TrackedElsewhere(p: Platform, s: State, step: Step, id: Id)
    requires Recorded(s) && Tracked(s, id) && Enabled(p, s, step) && !step.Work? && !step.Crash?
    ensures Tracked(Apply(s, step, p), id)
  {
    hide Advance, Starts, Aware, Named, Launches;
    StartsStep(p, s, step, id);
  }

  lemma TrackedCrash(p: Platform, s: State, step: Step, id: Id)
    requires Restores(s, step) && Spares(p, s, step) && Tracked(s, id) && Fixed(s) && Enabled(p, s, step) && step.Crash?
    ensures Tracked(Apply(s, step, p), id)
  {
    hide Advance, Starts;
  }

  lemma UnstartedElsewhere(p: Platform, s: State, step: Step)
    requires Restores(s, step) && Unstarted(s) && Searched(s) && Fixed(s) && s.file.Valid()
    requires Enabled(p, s, step) && !step.Work?
    ensures Unstarted(Apply(s, step, p)) && Searched(Apply(s, step, p)) && Fixed(Apply(s, step, p))
  {
    var t := Apply(s, step, p);
    forall id ensures Starts(t.log, id) == Starts(s.log, id) { StartsStep(p, s, step, id); }
    hide Advance, Starts;
  }

  lemma OnceElsewhere(p: Platform, s: State, step: Step)
    requires Restores(s, step) && Spares(p, s, step) && Recorded(s) && Once(s) && Enabled(p, s, step) && !step.Work?
    ensures Once(Apply(s, step, p))
  {
    UnstartedElsewhere(p, s, step);
    hide Advance, Apply, Tracked, Unstarted, Searched, Fixed;
    forall id ensures Tracked(Apply(s, step, p), id) {
      if step.Crash? { TrackedCrash(p, s, step, id); } else { TrackedElsewhere(p, s, step, id); }
    }
  }

  lemma OnceStep(p: Platform, s: State, step: Step)
    requires Restores(s, step) && Spares(p, s, step) && Recorded(s) && Once(s) && Enabled(p, s, step)
    ensures Once(Apply(s, step, p))
  {
    if step.Work? {
      forall id ensures Tracked(Apply(s, step, p), id) { TrackedWork(p, s, step.choice, id); }
      UnstartedWork(p, s, step.choice);
      SearchedWork(p, s, step.choice);
      FixedWork(p, s, step.choice);
    } else {
      OnceElsewhere(p, s, step);
    }
  }

  // ----- failed starts -----

  /** A start that is recorded as failed never ran. */
  ghost predicate Truthful(s: State) {
    IsFailed(s.file.visible) ==> Starts(s.log, s.file.visible.value.id) == 0
  }

  /** The same of every record that may be found after a power loss. */
  ghost predicate AllTruthful(s: State) {
    forall c :: c in s.file.possible && IsFailed(c) ==> Starts(s.log, c.value.id) == 0
  }

  /** The record is written, and if it is that of a failed start then the unit never started. */
  ghost predicate Writes(s: State, record: JobRecord, outcome: Outcome, file: Register<JobRecord>) {
    file == s.file.Write(record, outcome) && (record.status == Completed(false) ==> Starts(s.log, record.id) == 0)
  }

  /** The record that a writing program point writes. */
  function Target(pc: Pc): JobRecord {
    match pc
    case ImportingResult(record, _) => record.(status := Completed(true))
    case ImportWriting(record) => record
    case Recording(record) => record
    case Marking(record) => record.(attempted := true)
    case Completing(record, started) => record.(status := Completed(started))
    case _ => JobRecord(0, 0, false, InProgress)
  }

  /** What one step of a dispatch does to the record file and to starts. */
  lemma FileWork(p: Platform, s: State, choice: Choice)
    requires Recorded(s) && Once(s) && Enabled(p, s, Work(choice))
    ensures var t := Advance(s, choice);
            || (t.file == s.file && t.log == s.log)
            || (t.file == s.file && s.pc.Launching? && s.file.visible.Some? && s.file.visible.value.status.InProgress?)
            || (t.log == s.log && exists record :: Writes(s, record, choice.outcome, t.file))
  {
    assert Aware(s) && Searched(s);
    if s.pc.Launching? {
      LaunchKeeps(s, choice);
    } else {
      WorkKeeps(s, choice);
      var record := Target(s.pc);
      assert Advance(s, choice).file == s.file || Writes(s, record, choice.outcome, Advance(s, choice).file);
    }
    hide Recorded, Once, Starts, Waiting;
  }

  lemma TruthfulStep(p: Platform, s: State, step: Step)
    requires RevivesNoFailure(s, step) && Recorded(s) && Once(s) && Truthful(s) && Enabled(p, s, step)
    ensures Truthful(Apply(s, step, p))
  {
    if step.Work? {
      FileWork(p, s, step.choice);
      hide Advance, Recorded, Once, Starts;
    } else {
      if s.file.visible.Some? { StartsStep(p, s, step, s.file.visible.value.id); }
      hide Advance, Recorded, Once, Starts;
    }
  }

  lemma AllTruthfulStep(p: Platform, s: State, step: Step)
    requires Synced(step) && Anchored(s) && Recorded(s) && Once(s) && AllTruthful(s) && Enabled(p, s, step)
    ensures AllTruthful(Apply(s, step, p))
  {
    if step.Work? {
      FileWork(p, s, step.choice);
      hide Advance, Recorded, Once, Starts;
    } else {
      var t := Apply(s, step, p);
      forall id ensures Starts(t.log, id) == Starts(s.log, id) { StartsStep(p, s, step, id); }
      hide Advance, Recorded, Once, Starts;
    }
  }

  // ----- one body under the key -----

  /** A body that was started since the key was released belongs to its marked record, or to its
      legacy mapping. */
  ghost predicate Owned(s: State) {
    forall id :: id in Begun(s.log) ==>
      (Marked(s.file.visible) && s.file.visible.value.id == id) || s.legacy == Some(id)
  }

  lemma OwnedLaunch(s: State, choice: Choice)
    requires s.pc.Launching? && s.file.visible == Some(s.pc.record) && s.pc.record.attempted && Owned(s)
    ensures Owned(Advance(s, choice))
  {
    WorkLog(s, choice);
    BegunAfter(s.log, Launched(s.pc.record.id));
    BegunAfter(s.log + [Launched(s.pc.record.id)], Started(s.pc.record.id));
    assert Advance(s, choice).legacy == s.legacy;
    hide Begun, Advance;
  }

  lemma OwnedWork(p: Platform, s: State, choice: Choice)
    requires Recorded(s) && Enabled(p, s, Work(choice)) && Owned(s)
    ensures Owned(Advance(s, choice))
  {
    hide Begun, Launches, Starts, Bounded, Named;
    assert Aware(s);
    if s.pc.Launching? {
      OwnedLaunch(s, choice);
    } else {
      WorkLog(s, choice);
    }
  }

  lemma OwnedStep(p: Platform, s: State, step: Step)
    requires Restores(s, step) && Recorded(s) && Enabled(p, s, step) && Owned(s)
    ensures Owned(Apply(s, step, p))
  {
    if step.Work? {
      OwnedWork(p, s, step.choice);
    } else {
      BegunAfter(s.log, Released);
      hide Begun;
    }
  }

  /** Bodies of one unit only are starts of that unit. */
  lemma {:induction false} BegunAreStarts(log: seq<Event>, id: Id)
    requires forall other :: other in Begun(log) ==> other == id
    ensures |Begun(log)| <= Starts(log, id)
  {
    if log != [] {
      var earlier, last := log[..|log| - 1], log[|log| - 1];
      if !last.Released? {
        assert forall other :: other in Begun(earlier) ==> other in Begun(log);
        BegunAreStarts(earlier, id);
        assert last.Started? ==> last.id in Begun(log);
      }
    }
  }

  // ----- what holds on every platform -----

  function IdOf(pc: Pc): Option<Id> {
    match pc
    case ImportingResult(record, _) => Some(record.id)
    case ImportWriting(record) => Some(record.id)
    case Recording(record) => Some(record.id)
    case Discarding(record) => Some(record.id)
    case Reconciling(record) => Some(record.id)
    case Marking(record) => Some(record.id)
    case Launching(record, _) => Some(record.id)
    case PollingUnit(record, _, _) => Some(record.id)
    case PollingResult(record, _, _, _) => Some(record.id)
    case Completing(record, _) => Some(record.id)
    case _ => None
  }

  /** While a key has a legacy mapping, nothing but the mapped job is ever recorded under it,
      worked on, or launched. */
  ghost predicate Mapped(s: State) {
    s.legacy.Some? ==>
      && !s.pc.Preparing?
      && (IdOf(s.pc).Some? ==> IdOf(s.pc) == s.legacy)
      && (forall c :: c in s.file.possible && c.Some? ==> c.value.id == s.legacy.value)
      && (forall id :: id in Launches(s.log) ==> id == s.legacy.value)
  }

  /** Ids that have not been drawn yet are used nowhere. */
  ghost predicate Drawn(s: State) {
    Bounded(s) && (IdOf(s.pc).Some? ==> IdOf(s.pc).value < s.next)
  }

  lemma MappedLaunch(p: Platform, s: State, choice: Choice)
    requires Mapped(s) && Enabled(p, s, Work(choice)) && s.pc.Launching?
    ensures Mapped(Advance(s, choice))
  {
    WorkLog(s, choice);
    LaunchedNames(s.log, s.pc.record.id);
    assert Advance(s, choice).legacy == s.legacy && IdOf(Advance(s, choice).pc) in {None, IdOf(s.pc)};
    hide Launches, Advance;
  }

  lemma MappedWork(p: Platform, s: State, choice: Choice)
    requires s.file.Valid() && Mapped(s) && Enabled(p, s, Work(choice))
    ensures Mapped(Advance(s, choice))
  {
    hide Launches;
    if s.pc.Launching? {
      MappedLaunch(p, s, choice);
    } else {
      WorkKeeps(s, choice);
    }
  }

  lemma ValidStep(p: Platform, s: State, step: Step)
    requires s.file.Valid() && Enabled(p, s, step)
    ensures Apply(s, step, p).file.Valid()
  {
  }

  lemma MappedStep(p: Platform, s: State, step: Step)
    requires s.file.Valid() && Mapped(s) && Enabled(p, s, step)
    ensures Mapped(Apply(s, step, p))
  {
    if step.Work? {
      MappedWork(p, s, step.choice);
    } else {
      LogAfter(s.log, Released, 0);
      hide Launches;
    }
  }

  lemma DrawnWork(p: Platform, s: State, choice: Choice)
    requires s.file.Valid() && Drawn(s) && Enabled(p, s, Work(choice))
    ensures Drawn(Advance(s, choice))
  {
    if Holds(s.pc) {
      DrawnHolding(p, s, choice);
    } else {
      WorkKeeps(s, choice);
      hide Waiting;
    }
  }

  lemma DrawnHolding(p: Platform, s: State, choice: Choice)
    requires Drawn(s) && Enabled(p, s, Work(choice)) && Holds(s.pc)
    ensures Drawn(Advance(s, choice))
  {
    var t := Advance(s, choice);
    assert t.specs == s.specs && t.results == s.results && t.next == s.next && t.legacy == s.legacy
        && t.forgotten == s.forgotten;
    WorkLog(s, choice);
  }

  lemma DrawnStep(p: Platform, s: State, step: Step)
    requires s.file.Valid() && Drawn(s) && Enabled(p, s, step)
    ensures Drawn(Apply(s, step, p))
  {
    if step.Work? { DrawnWork(p, s, step.choice); }
  }
}
