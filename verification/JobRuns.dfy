/** Keyed `job.start` over whole runs: what holds in every run, and what holds in every run that
    is spared the one or the other fault. A run may be spared a fault on any platform. */
module JobRuns {
  import opened Common
  import opened Register
  import opened JobProtocol

  ghost predicate Legal(p: Platform, s: State, steps: seq<Step>)
    decreases |steps|, 0
  {
    steps == [] ||
    (Legal(p, s, steps[..|steps| - 1]) && Enabled(p, Execute(p, s, steps[..|steps| - 1]), steps[|steps| - 1]))
  }

  ghost function Execute(p: Platform, s: State, steps: seq<Step>): State
    requires Legal(p, s, steps)
    decreases |steps|, 1
  {
    if steps == [] then s else Apply(Execute(p, s, steps[..|steps| - 1]), steps[|steps| - 1], p)
  }

  lemma Append(p: Platform, s: State, steps: seq<Step>, step: Step) returns (now: State)
    requires Legal(p, s, steps) && Enabled(p, Execute(p, s, steps), step)
    ensures Legal(p, s, steps + [step]) && Execute(p, s, steps + [step]) == now
    ensures now == Apply(Execute(p, s, steps), step, p)
  {
    assert (steps + [step])[..|steps|] == steps;
    now := Apply(Execute(p, s, steps), step, p);
  }

  /** No durable write of the run stops between its rename and its directory sync. */
  predicate SyncedRun(steps: seq<Step>) {
    forall step :: step in steps ==> Synced(step)
  }

  /** No power loss of the run takes a unit that is still running. */
  ghost predicate SparedRun(p: Platform, s: State, steps: seq<Step>)
    requires Legal(p, s, steps)
  {
    steps == [] ||
    (SparedRun(p, s, steps[..|steps| - 1]) && Spares(p, Execute(p, s, steps[..|steps| - 1]), steps[|steps| - 1]))
  }

  /** No power loss of the run takes back a launch mark. */
  ghost predicate RestoredRun(p: Platform, s: State, steps: seq<Step>)
    requires Legal(p, s, steps)
  {
    steps == [] ||
    (RestoredRun(p, s, steps[..|steps| - 1]) && Restores(Execute(p, s, steps[..|steps| - 1]), steps[|steps| - 1]))
  }

  /** No power loss of the run brings back a failed start that was not visible. */
  ghost predicate UnrevivedRun(p: Platform, s: State, steps: seq<Step>)
    requires Legal(p, s, steps)
  {
    steps == [] ||
    (UnrevivedRun(p, s, steps[..|steps| - 1])
     && RevivesNoFailure(Execute(p, s, steps[..|steps| - 1]), steps[|steps| - 1]))
  }

  /** This step takes back no launch mark, no running unit, and no failure that is not visible. */
  predicate Harmless(p: Platform, s: State, step: Step) {
    Restores(s, step) && Spares(p, s, step) && RevivesNoFailure(s, step)
  }

  ghost predicate HarmlessRun(p: Platform, s: State, steps: seq<Step>)
    requires Legal(p, s, steps)
  {
    RestoredRun(p, s, steps) && SparedRun(p, s, steps) && UnrevivedRun(p, s, steps)
  }

  lemma AppendHarmless(p: Platform, s: State, steps: seq<Step>, step: Step)
    requires Legal(p, s, steps) && Legal(p, s, steps + [step])
    requires HarmlessRun(p, s, steps) && Harmless(p, Execute(p, s, steps), step)
    ensures HarmlessRun(p, s, steps + [step])
  {
    assert (steps + [step])[..|steps|] == steps;
  }

  predicate LosesPower(step: Step) {
    step.Crash? && step.powerLoss
  }

  /** The power is never lost. */
  predicate Powered(steps: seq<Step>) {
    forall step :: step in steps ==> !LosesPower(step)
  }

  /** A run without power losses - however often the process crashes, and whatever writes fail -
      is spared everything. */
  lemma {:induction false} NoPowerLossSpares(p: Platform, s: State, steps: seq<Step>)
    requires Legal(p, s, steps) && Powered(steps)
    ensures HarmlessRun(p, s, steps)
  {
    if steps != [] {
      assert steps[|steps| - 1] in steps;
      NoPowerLossSpares(p, s, steps[..|steps| - 1]);
    }
  }

  lemma {:induction false} PlatformSyncs(p: Platform, s: State, steps: seq<Step>)
    requires !p.syncFaults && Legal(p, s, steps)
    ensures SyncedRun(steps)
  {
    if steps != [] {
      PlatformSyncs(p, s, steps[..|steps| - 1]);
      assert steps == steps[..|steps| - 1] + [steps[|steps| - 1]];
    }
  }

  lemma {:induction false} PlatformSpares(p: Platform, s: State, steps: seq<Step>)
    requires !p.unitLoss && Legal(p, s, steps)
    ensures SparedRun(p, s, steps)
  {
    if steps != [] { PlatformSpares(p, s, steps[..|steps| - 1]); }
  }

  /** Where all writes are synced, no power loss takes back a launch mark. */
  lemma {:induction false} SyncedRestores(p: Platform, s: State, steps: seq<Step>)
    requires Init(s) && Legal(p, s, steps) && SyncedRun(steps)
    ensures Anchored(Execute(p, s, steps)) && RestoredRun(p, s, steps)
  {
    if steps != [] {
      var before, last := steps[..|steps| - 1], steps[|steps| - 1];
      assert last in steps;
      SyncedRestores(p, s, before);
      AnchoredRestores(p, Execute(p, s, before), last);
      AnchoredStep(p, Execute(p, s, before), last);
    }
  }

  // ----- runs that keep their marks -----

  lemma {:induction false} RunRecorded(p: Platform, s: State, steps: seq<Step>)
    requires Init(s) && Legal(p, s, steps) && RestoredRun(p, s, steps)
    ensures Recorded(Execute(p, s, steps)) && Owned(Execute(p, s, steps))
  {
    if steps == [] {
      InitRecorded(s);
    } else {
      hide Init, Recorded, Owned, Apply, Restores;
      var before, last := steps[..|steps| - 1], steps[|steps| - 1];
      RunRecorded(p, s, before);
      RecordedStep(p, Execute(p, s, before), last);
      OwnedStep(p, Execute(p, s, before), last);
    }
  }

  lemma NoEvents(id: Id)
    ensures Launches([]) == [] && Begun([]) == [] && Starts([], id) == 0
  {
  }

  /** The log of an initial state. */
  lemma InitLog(s: State, id: Id)
    requires Init(s)
    ensures Launches(s.log) == []
    ensures s.log == [] ==> Begun(s.log) == [] && Starts(s.log, id) == 0
    ensures s.log != [] ==>
              s.legacy.Some? && s.Visible(s.legacy.value) && Begun(s.log) == [s.legacy.value]
              && Starts(s.log, id) == if s.legacy == Some(id) then 1 else 0
  {
    hide Launches, Begun, Starts;
    NoEvents(id);
    if s.log != [] {
      BegunAfter([], s.log[0]);
      LogAfter([], s.log[0], id);
      assert [] + [s.log[0]] == s.log;
    }
  }

  lemma InitRecorded(s: State)
    requires Init(s)
    ensures Recorded(s) && Owned(s)
  {
    hide Launches, Begun, Starts;
    InitLog(s, 0);
  }

  lemma InitOnce(s: State)
    requires Init(s)
    ensures Once(s)
  {
    hide Launches, Begun, Starts;
    forall id ensures Tracked(s, id) { InitLog(s, id); }
  }

  predicate IsLaunch(s: State, step: Step) {
    step.Work? && s.pc.Launching? && step.choice.ok
  }

  /** Whatever the state file holds, or may hold after a power loss, binds the key to this
      id and says that a launch was attempted. */
  ghost predicate Bound(s: State, id: Id) {
    && s.file.visible in s.file.possible
    && (forall c :: c in s.file.possible ==> c.Some? && c.value.id == id && c.value.attempted)
  }

  /** The same, and the launch is still unresolved. */
  ghost predicate BoundAndOpen(s: State, id: Id) {
    Bound(s, id) && forall c :: c in s.file.possible ==> c.value.status.InProgress?
  }

  /** Since a key was last pruned or forgotten, every launch under it has named the id of its
      visible record, which is marked. */
  lemma OneVisibleUnit(p: Platform, s: State, steps: seq<Step>, id: Id)
    requires Init(s) && Legal(p, s, steps) && RestoredRun(p, s, steps)
    requires id in Launches(Execute(p, s, steps).log)
    ensures Marked(Execute(p, s, steps).file.visible) && Execute(p, s, steps).file.visible.value.id == id
  {
    RunRecorded(p, s, steps);
  }

  lemma {:induction false} RunOnce(p: Platform, s: State, steps: seq<Step>)
    requires Init(s) && Legal(p, s, steps) && RestoredRun(p, s, steps) && SparedRun(p, s, steps)
    ensures Once(Execute(p, s, steps))
  {
    if steps == [] {
      InitOnce(s);
    } else {
      hide Init, Recorded, Once, Apply, Restores, Spares;
      var before, last := steps[..|steps| - 1], steps[|steps| - 1];
      RunOnce(p, s, before);
      RunRecorded(p, s, before);
      OnceStep(p, Execute(p, s, before), last);
    }
  }

  /** One key, one body, on every platform: in a run whose power losses take back no launch mark
      and no running unit, no unit ever starts twice, and since a key was last pruned or
      forgotten at most one body has started under it. Writes may fail at any point, also after
      their rename, and the process may crash at any point. */
  lemma BodyRunsOnce(p: Platform, s: State, steps: seq<Step>)
    requires Init(s) && Legal(p, s, steps) && RestoredRun(p, s, steps) && SparedRun(p, s, steps)
    ensures forall id :: Starts(Execute(p, s, steps).log, id) <= 1
    ensures |Begun(Execute(p, s, steps).log)| <= 1
  {
    RunOnce(p, s, steps);
    RunRecorded(p, s, steps);
    var t := Execute(p, s, steps);
    forall id ensures Starts(t.log, id) <= 1 { assert Tracked(t, id); }
    if Begun(t.log) != [] {
      var id := Begun(t.log)[0];
      assert id in Begun(t.log);
      forall other | other in Begun(t.log) ensures other == id {
        assert t.legacy.Some? && t.file.visible.Some? ==> t.file.visible in t.file.possible;
      }
      BegunAreStarts(t.log, id);
    }
  }

  /** All of it together, of a run whose power losses are harmless. */
  lemma HarmlessRunsKeepThePromises(p: Platform, s: State, steps: seq<Step>, id: Id)
    requires Init(s) && Legal(p, s, steps) && HarmlessRun(p, s, steps)
    ensures Promised(Execute(p, s, steps), id)
  {
    BodyRunsOnce(p, s, steps);
    RunRecorded(p, s, steps);
    VisibleFailureNeverRan(p, s, steps);
  }

  /** No unit has started twice and no two bodies under the key; every launch since it was
      released named the recorded job; and a start that is recorded as failed never ran. */
  predicate Promised(s: State, id: Id) {
    && Starts(s.log, id) <= 1 && |Begun(s.log)| <= 1
    && (id in Launches(s.log) ==> Marked(s.file.visible) && s.file.visible.value.id == id)
    && (IsFailed(s.file.visible) && s.file.visible.value.id == id ==> Starts(s.log, id) == 0)
  }

  /** In particular failing writes and crashes of the process alone never make a body run twice. */
  lemma CrashesAreHarmless(p: Platform, s: State, steps: seq<Step>, id: Id)
    requires Init(s) && Legal(p, s, steps) && Powered(steps)
    ensures Promised(Execute(p, s, steps), id)
  {
    NoPowerLossSpares(p, s, steps);
    HarmlessRunsKeepThePromises(p, s, steps, id);
  }

  /** A start that is visibly recorded as failed never ran its body, if no power loss revives an
      older failure either. */
  lemma {:induction false} VisibleFailureNeverRan(p: Platform, s: State, steps: seq<Step>)
    requires Init(s) && Legal(p, s, steps)
    requires HarmlessRun(p, s, steps)
    ensures Truthful(Execute(p, s, steps))
  {
    if steps != [] {
      hide Init, Recorded, Once, Apply, Restores, Spares, Truthful, RevivesNoFailure;
      var before, last := steps[..|steps| - 1], steps[|steps| - 1];
      VisibleFailureNeverRan(p, s, before);
      RunRecorded(p, s, before);
      RunOnce(p, s, before);
      TruthfulStep(p, Execute(p, s, before), last);
    }
  }

  // ----- runs whose writes are synced -----

  /** Write-ahead: every launch happens under a record that names it, marks it, and cannot be
      lost any more. */
  lemma LaunchIsRecorded(p: Platform, s: State, steps: seq<Step>, step: Step)
    requires Init(s) && Legal(p, s, steps) && SyncedRun(steps)
    requires Enabled(p, Execute(p, s, steps), step) && IsLaunch(Execute(p, s, steps), step)
    ensures BoundAndOpen(Execute(p, s, steps), Execute(p, s, steps).pc.record.id)
  {
    SyncedRestores(p, s, steps);
    RunRecorded(p, s, steps);
  }

  /** One key, one unit: since a key was last pruned or forgotten, every launch under it has
      named one id, and nothing but a record of that id can be found. */
  lemma OneUnitPerKey(p: Platform, s: State, steps: seq<Step>, id: Id)
    requires Init(s) && Legal(p, s, steps) && SyncedRun(steps)
    requires id in Launches(Execute(p, s, steps).log)
    ensures Bound(Execute(p, s, steps), id)
  {
    SyncedRestores(p, s, steps);
    RunRecorded(p, s, steps);
  }

  /** A start that is recorded as failed, in whatever a power loss may leave, never ran its body:
      both launches were refused by systemd. */
  lemma FailedStartNeverRan(p: Platform, s: State, steps: seq<Step>, record: JobRecord)
    requires Init(s) && Legal(p, s, steps) && SyncedRun(steps) && SparedRun(p, s, steps)
    requires Some(record) in Execute(p, s, steps).file.possible && record.status == Completed(false)
    ensures Starts(Execute(p, s, steps).log, record.id) == 0
  {
    RunTruthful(p, s, steps);
  }

  lemma {:induction false} RunTruthful(p: Platform, s: State, steps: seq<Step>)
    requires Init(s) && Legal(p, s, steps) && SyncedRun(steps) && SparedRun(p, s, steps)
    ensures AllTruthful(Execute(p, s, steps))
  {
    if steps != [] {
      hide Init, Recorded, Once, Apply, Anchored, Spares, AllTruthful;
      var before, last := steps[..|steps| - 1], steps[|steps| - 1];
      assert last in steps;
      RunTruthful(p, s, before);
      SyncedRestores(p, s, before);
      RunRecorded(p, s, before);
      RunOnce(p, s, before);
      AllTruthfulStep(p, Execute(p, s, before), last);
    }
  }

  // ----- every run -----

  lemma {:induction false} RunMapped(p: Platform, s: State, steps: seq<Step>)
    requires Init(s) && Legal(p, s, steps)
    ensures Execute(p, s, steps).file.Valid() && Mapped(Execute(p, s, steps)) && Drawn(Execute(p, s, steps))
  {
    if steps == [] {
      InitRecorded(s);
    } else {
      var before := steps[..|steps| - 1];
      RunMapped(p, s, before);
      ValidStep(p, Execute(p, s, before), steps[|steps| - 1]);
      MappedStep(p, Execute(p, s, before), steps[|steps| - 1]);
      DrawnStep(p, Execute(p, s, before), steps[|steps| - 1]);
    }
  }

  /** While a key still has a legacy mapping, every launch under it is of the mapped job: a
      migration never creates a second unit, whatever fails. */
  lemma MigrationKeepsItsUnit(p: Platform, s: State, steps: seq<Step>, id: Id)
    requires Init(s) && Legal(p, s, steps)
    requires Execute(p, s, steps).legacy.Some? && id in Launches(Execute(p, s, steps).log)
    ensures Execute(p, s, steps).legacy == Some(id)
  {
    RunMapped(p, s, steps);
  }

  /** The launches of a run since the last dispatch arrived. */
  ghost function LaunchesNow(p: Platform, s: State, steps: seq<Step>): nat
    requires Legal(p, s, steps)
  {
    if steps == [] then 0
    else
      var before, last := steps[..|steps| - 1], steps[|steps| - 1];
      if last.Arrive? then 0
      else LaunchesNow(p, s, before) + if IsLaunch(Execute(p, s, before), last) then 1 else 0
  }

  /** The steps of a run from the last launch of the present dispatch on. */
  ghost function Window(p: Platform, s: State, steps: seq<Step>): seq<Step>
    requires Legal(p, s, steps)
  {
    if steps == [] then []
    else
      var before, last := steps[..|steps| - 1], steps[|steps| - 1];
      if last.Arrive? then []
      else if IsLaunch(Execute(p, s, before), last) then [last]
      else if Window(p, s, before) == [] then []
      else Window(p, s, before) + [last]
  }

  /** The window began with a launch that reported an error. */
  predicate AfterError(window: seq<Step>) {
    window != [] && window[0].Work? && !window[0].choice.closed
  }

  /** Every look at the unit since then was answered. */
  predicate Answered(window: seq<Step>) {
    forall step :: step in window && step.Work? ==> step.choice.ok
  }

  /** What a dispatch that has made `n` launches knows about its unit. */
  predicate Counts(s: State, n: nat, window: seq<Step>) {
    match s.pc
    case Launching(record, attempt) =>
      n == attempt < 2
      && (n > 0 ==> AfterError(window) && Answered(window) && record.id in s.specs && !s.Visible(record.id))
    case PollingUnit(_, attempt, failed) =>
      n == attempt <= 2 && (n > 0 ==> AfterError(window) && (!failed ==> Answered(window)))
    case PollingResult(record, attempt, failed, loaded) =>
      n == attempt <= 2 && (n > 0 ==> AfterError(window) && (!failed ==> Answered(window)))
      && (!loaded ==> record.id !in s.units)
    case Idle => n <= 2
    case Completing(_, _) => n <= 2
    case Done(_) => n <= 2
    case _ => n == 0
  }

  lemma CountsWork(p: Platform, s: State, n: nat, window: seq<Step>, choice: Choice)
    requires Counts(s, n, window) && Enabled(p, s, Work(choice))
    ensures var launch := IsLaunch(s, Work(choice));
            Counts(Advance(s, choice), if launch then n + 1 else n,
                   if launch then [Work(choice)] else if window == [] then [] else window + [Work(choice)])
  {
    if window != [] {
      assert (window + [Work(choice)])[0] == window[0];
      assert Answered(window) && choice.ok ==> Answered(window + [Work(choice)]);
    }
  }

  lemma CountsElsewhere(p: Platform, s: State, n: nat, window: seq<Step>, step: Step)
    requires Counts(s, n, window) && Enabled(p, s, step) && !step.Work? && !step.Arrive?
    ensures Counts(Apply(s, step, p), n, if window == [] then [] else window + [step])
  {
    if window != [] {
      assert (window + [step])[0] == window[0];
      assert Answered(window) ==> Answered(window + [step]);
    }
  }

  lemma {:induction false} RunCounts(p: Platform, s: State, steps: seq<Step>)
    requires Init(s) && Legal(p, s, steps)
    ensures Counts(Execute(p, s, steps), LaunchesNow(p, s, steps), Window(p, s, steps))
  {
    if steps != [] {
      var before, last := steps[..|steps| - 1], steps[|steps| - 1];
      RunCounts(p, s, before);
      hide Advance;
      match last
      case Arrive(_) =>
      case Work(choice) =>
        CountsWork(p, Execute(p, s, before), LaunchesNow(p, s, before), Window(p, s, before), choice);
      case _ => CountsElsewhere(p, Execute(p, s, before), LaunchesNow(p, s, before), Window(p, s, before), last);
    }
  }

  /** A dispatch launches at most twice, whatever fails. */
  lemma AtMostTwoLaunches(p: Platform, s: State, steps: seq<Step>)
    requires Init(s) && Legal(p, s, steps)
    ensures LaunchesNow(p, s, steps) <= 2
  {
    RunCounts(p, s, steps);
  }

  /** A second launch of one dispatch follows only an absence: the first one reported an error,
      every look at the unit since then was answered, and the unit has a job directory but is
      neither loaded nor has it a result. */
  lemma SecondLaunchFollowsAbsence(p: Platform, s: State, steps: seq<Step>, step: Step)
    requires Init(s) && Legal(p, s, steps)
    requires Enabled(p, Execute(p, s, steps), step) && IsLaunch(Execute(p, s, steps), step)
    requires LaunchesNow(p, s, steps) > 0
    ensures LaunchesNow(p, s, steps) == 1
    ensures AfterError(Window(p, s, steps)) && Answered(Window(p, s, steps))
    ensures var t := Execute(p, s, steps); t.pc.record.id in t.specs && !t.Visible(t.pc.record.id)
  {
    RunCounts(p, s, steps);
  }

  /** Every dispatch under the key is on its way to what the completed `record` says: its
      result for the same request, a conflict for any other, or a failure to read. */
  ghost predicate Replays(s: State, record: JobRecord) {
    && record.status.Completed? && s.file == Register(Some(record), {Some(record)})
    && (s.legacy.Some? ==> s.legacy.value == record.id)
    && match s.pc
       case Idle => true
       case Reading => true
       case Done(reply) =>
         reply == Refused
         || reply == (if record.request == s.request then Replayed(record.id, record.status.started) else Conflict)
       case _ => false
  }

  lemma ReplaysStep(p: Platform, s: State, step: Step, record: JobRecord)
    requires Replays(s, record) && Enabled(p, s, step) && !step.Prune? && !(step.Forget? && step.id == record.id)
    ensures Replays(Apply(s, step, p), record) && Apply(s, step, p).log == s.log
  {
  }

  lemma {:induction false} RunReplays(p: Platform, s: State, steps: seq<Step>, record: JobRecord)
    requires Replays(s, record) && Legal(p, s, steps)
    requires forall step :: step in steps ==> !step.Prune? && !(step.Forget? && step.id == record.id)
    ensures Replays(Execute(p, s, steps), record) && Execute(p, s, steps).log == s.log
  {
    if steps != [] {
      var before, last := steps[..|steps| - 1], steps[|steps| - 1];
      assert last in steps;
      RunReplays(p, s, before, record);
      ReplaysStep(p, Execute(p, s, before), last, record);
    }
  }

  /** Stable replay, on any platform: a result published as completed stays what it is, through
      dispatches, crashes and power losses, until its record is pruned or its job forgotten,
      and no dispatch launches anything. */
  lemma PublishedResultIsReplayed(p: Platform, init: State, earlier: seq<Step>, steps: seq<Step>, record: JobRecord)
    requires Init(init) && Legal(p, init, earlier)
    requires var s := Execute(p, init, earlier);
             s.pc.Idle? && record.status.Completed? && s.file == Register(Some(record), {Some(record)})
    requires Legal(p, Execute(p, init, earlier), steps)
    requires forall step :: step in steps ==> !step.Prune? && !(step.Forget? && step.id == record.id)
    ensures Replays(Execute(p, Execute(p, init, earlier), steps), record)
    ensures Execute(p, Execute(p, init, earlier), steps).log == Execute(p, init, earlier).log
  {
    RunMapped(p, init, earlier);
    RunReplays(p, Execute(p, init, earlier), steps, record);
  }

  // ----- what one dispatch achieves -----

  /** The steps of systemd that do not concern any record. */
  predicate OfSystemd(step: Step) {
    step.Finish? || step.Unload?
  }

  /** Nothing fails that a dispatch does itself. */
  predicate Undisturbed(choice: Choice) {
    choice.ok && choice.outcome.Published? && choice.closed
  }

  /** The dispatch in progress goes on undisturbed; systemd may finish and unload units. */
  predicate Peaceful(steps: seq<Step>) {
    forall step :: step in steps ==> OfSystemd(step) || (step.Work? && Undisturbed(step.choice))
  }

  function Works(steps: seq<Step>): nat {
    if steps == [] then 0 else Works(steps[..|steps| - 1]) + if steps[|steps| - 1].Work? then 1 else 0
  }

  /** Where a dispatch of `request` stands after `n` steps that resolve `record`, whose unit can
      be seen. */
  predicate Resolving(s: State, request: nat, record: JobRecord, n: nat) {
    && s.request == request && s.Visible(record.id) && record.id in s.specs
    && match n
       case 0 => s.pc == Reading && s.file.visible == Some(record)
       case 1 => s.pc == Reconciling(record) && s.file.visible == Some(record)
       case 2 => s.pc == PollingUnit(record, 0, false)
       case 3 =>
         && s.pc.PollingResult? && s.pc == PollingResult(record, 0, false, s.pc.loaded)
         && (s.pc.loaded || record.id in s.results)
       case 4 => s.pc == Completing(record, true)
       case 5 =>
         var completed := Some(record.(status := Completed(true)));
         s.pc == Done(Resolved(record.id, true)) && s.file == Register(completed, {completed})
       case _ => false
  }

  lemma ResolvingStep(p: Platform, s: State, request: nat, record: JobRecord, n: nat, step: Step)
    requires Resolving(s, request, record, n) && Enabled(p, s, step)
    requires OfSystemd(step) || (step.Work? && Undisturbed(step.choice))
    requires record.status.InProgress? && record.attempted && record.request == request
    ensures Resolving(Apply(s, step, p), request, record, if step.Work? then n + 1 else n)
    ensures Apply(s, step, p).log == s.log
  {
  }

  /** A lost response is resolved: on every platform and from every state in which a dispatch
      has just arrived for a record that is still in progress, whose launch was attempted, and
      whose unit can be seen, the dispatch goes through five steps - whatever systemd does with
      the unit in between - and then has recorded the job as started. It launches nothing. */
  lemma {:induction false} LostResponseIsResolved(p: Platform, s: State, steps: seq<Step>, record: JobRecord)
    requires s.pc.Reading? && s.file.visible == Some(record)
    requires record.status.InProgress? && record.attempted && record.request == s.request
    requires record.id in s.specs && s.Visible(record.id)
    requires Legal(p, s, steps) && Peaceful(steps)
    ensures Works(steps) <= 5 && Resolving(Execute(p, s, steps), s.request, record, Works(steps))
    ensures Execute(p, s, steps).log == s.log
  {
    if steps != [] {
      var before, last := steps[..|steps| - 1], steps[|steps| - 1];
      LostResponseIsResolved(p, s, before, record);
      assert last in steps;
      ResolvingStep(p, Execute(p, s, before), s.request, record, Works(before), last);
    }
  }

  /** Where a first dispatch of `request` stands after `n` steps. */
  predicate Starting(s: State, request: nat, id: Id, log: seq<Event>, n: nat) {
    var unmarked := JobRecord(request, id, false, InProgress);
    var marked := unmarked.(attempted := true);
    && s.request == request && (n < 6 ==> s.log == log && id !in s.units)
    && match n
       case 0 => s.pc == Reading && s.file.visible.None? && s.legacy.None? && s.next == id
       case 1 => s.pc == Importing && s.legacy.None? && s.next == id
       case 2 => s.pc == Preparing && s.next == id
       case 3 => s.pc == Recording(unmarked)
       case 4 => s.pc == Marking(unmarked) && s.file == Register(Some(unmarked), {Some(unmarked)})
       case 5 => s.pc == Launching(marked, 0) && s.file == Register(Some(marked), {Some(marked)})
       case 6 => s.pc == Completing(marked, true) && s.log == log + [Launched(id)] + [Started(id)]
       case 7 =>
         var completed := Some(marked.(status := Completed(true)));
         && s.pc == Done(Resolved(id, true)) && s.file == Register(completed, {completed})
         && s.log == log + [Launched(id)] + [Started(id)]
       case _ => false
  }

  lemma StartingStep(p: Platform, s: State, request: nat, id: Id, log: seq<Event>, n: nat, step: Step)
    requires Starting(s, request, id, log, n) && Enabled(p, s, step)
    requires OfSystemd(step) || (step.Work? && Undisturbed(step.choice) && step.choice.accepted)
    ensures Starting(Apply(s, step, p), request, id, log, if step.Work? then n + 1 else n)
  {
  }

  lemma {:induction false} FirstSteps(p: Platform, s: State, steps: seq<Step>)
    requires s.pc.Reading? && s.file.visible.None? && s.legacy.None? && s.next !in s.units
    requires Legal(p, s, steps) && Peaceful(steps)
    requires forall step :: step in steps && step.Work? ==> step.choice.accepted
    ensures Starting(Execute(p, s, steps), s.request, s.next, s.log, Works(steps))
  {
    if steps != [] {
      var before, last := steps[..|steps| - 1], steps[|steps| - 1];
      FirstSteps(p, s, before);
      assert last in steps;
      StartingStep(p, Execute(p, s, before), s.request, s.next, s.log, Works(before), last);
    }
  }

  /** A first start: from every reachable state in which a dispatch has just arrived for a key
      without a record and without a legacy mapping, an undisturbed dispatch whose launch is
      accepted goes through seven steps and then has recorded a fresh job as started, after one
      launch and one start of its body. */
  lemma FirstStart(p: Platform, init: State, earlier: seq<Step>, steps: seq<Step>)
    requires Init(init) && Legal(p, init, earlier)
    requires var s := Execute(p, init, earlier); s.pc.Reading? && s.file.visible.None? && s.legacy.None?
    requires Legal(p, Execute(p, init, earlier), steps) && Peaceful(steps)
    requires forall step :: step in steps && step.Work? ==> step.choice.accepted
    ensures var s := Execute(p, init, earlier);
            Works(steps) <= 7 && Starting(Execute(p, s, steps), s.request, s.next, s.log, Works(steps))
  {
    RunMapped(p, init, earlier);
    FirstSteps(p, Execute(p, init, earlier), steps);
  }
}
