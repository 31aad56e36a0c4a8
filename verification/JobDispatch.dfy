/** Keyed `job.start` as the program runs it, with its record, its job directories and the units
    of systemd updated in place. Every dispatch does what `JobEffects` says, and is a stretch of a
    run of the protocol in `JobProtocol`, so what is proved of all runs holds of it. */
module JobDispatch {
  import opened Common
  import opened Register
  import opened JobProtocol
  import opened JobRuns
  import opened JobEffects
  import E = JobEffects

  function Choose(ok: bool): Choice {
    Choice(ok, NotPublished, true, false, Continue)
  }

  class KeyedJobStore {
    const platform: Platform
    var file: Register<JobRecord>
    var legacy: Option<Id>
    var specs: Specs
    var results: set<Id>
    var units: set<Id>
    var next: Id
    var log: seq<Event>

    /** The protocol run this store has been through. */
    ghost var initial: State
    ghost var steps: seq<Step>

    ghost function Now(): State
      reads this
      requires Legal(platform, initial, steps)
    {
      Execute(platform, initial, steps)
    }

    /** The fields are the last state of a run whose power losses, if any, are harmless. */
    ghost predicate Mirrors()
      reads this
    {
      && Init(initial) && Legal(platform, initial, steps) && HarmlessRun(platform, initial, steps)
      && var s := Now();
         && s.file == file && s.legacy == legacy && s.specs == specs && s.results == results
         && s.units == units && s.next == next && s.log == log
    }

    ghost predicate Valid()
      reads this
    {
      Mirrors() && (Now().pc.Idle? || Now().pc.Done?)
    }

    ghost predicate Running(request: nat, pc: Pc)
      reads this
    {
      Mirrors() && Now().request == request && Now().pc == pc
    }

    predicate Visible(id: Id)
      reads this
    {
      Seen(units, results, id)
    }

    /** However many dispatches the store has been through, however often the process was
        restarted, on whatever platform: no unit has started twice and no two bodies under the
        key, every launch named the recorded job, and a start recorded as failed never ran. */
    lemma NeverTwice(id: Id)
      requires Valid()
      ensures Promised(Now(), id) && Now().log == log && Now().file == file
    {
      HarmlessRunsKeepThePromises(platform, initial, steps, id);
    }

    /** A store over whatever an older version may have left behind for the key. */
    constructor (platform: Platform, start: State)
      requires Init(start)
      ensures Valid() && this.platform == platform && initial == start && steps == []
      ensures file == start.file && legacy == start.legacy && specs == start.specs && log == start.log
      ensures results == start.results && units == start.units && next == start.next
    {
      this.platform := platform;
      file, legacy, specs, results, units, next, log :=
          start.file, start.legacy, start.specs, start.results, start.units, start.next, start.log;
      initial, steps := start, [];
    }

    ghost method Take(step: Step)
      requires Legal(platform, initial, steps) && HarmlessRun(platform, initial, steps)
      requires Enabled(platform, Now(), step) && Harmless(platform, Now(), step)
      modifies this`steps
      ensures Legal(platform, initial, steps) && HarmlessRun(platform, initial, steps) && old(steps) <= steps
      ensures Now() == Apply(old(Now()), step, platform)
    {
      var now := Append(platform, initial, steps, step);
      AppendHarmless(platform, initial, steps, step);
      steps := steps + [step];
    }

    /** One step of the dispatch in progress. */
    ghost method Move(choice: Choice)
      requires Legal(platform, initial, steps) && HarmlessRun(platform, initial, steps)
      requires Enabled(platform, Now(), Work(choice))
      modifies this`steps
      ensures Legal(platform, initial, steps) && HarmlessRun(platform, initial, steps) && old(steps) <= steps
      ensures Now() == Advance(old(Now()), choice)
    {
      Take(Work(choice));
    }

    /** The process crashes and starts again, and the power may be lost: `contents` is what the
        record file holds then. A power loss must take back no launch mark, no running unit, and
        no failure that is not visible. */
    method Restart(powerLoss: bool, contents: Option<JobRecord>)
      requires Mirrors() && (powerLoss ==> contents in file.possible && KeepsMark(file.visible, contents))
      requires powerLoss && platform.unitLoss ==> units <= results
      requires powerLoss && IsFailed(contents) ==> contents == file.visible
      modifies this`file, this`units, this`steps
      ensures Valid() && old(steps) <= steps
      ensures file == if powerLoss then old(file).Recover(contents) else old(file)
      ensures units == if powerLoss && platform.unitLoss then {} else old(units)
    {
      Facts();
      Take(Crash(powerLoss, contents, specs));
      if powerLoss {
        file := file.Recover(contents);
        if platform.unitLoss { units := {}; }
      }
    }

    lemma Facts()
      requires Mirrors()
      ensures forall id :: id in specs ==> id < next
    {
      RunMapped(platform, initial, steps);
    }

    /** Lets systemd finish a unit and unload a finished one. */
    method Elapse(request: nat, ghost pc: Pc, id: Id, events: Events)
      requires Running(request, pc)
      modifies this`results, this`units, this`steps
      ensures Running(request, pc) && old(steps) <= steps
      ensures old(results) <= results <= old(results) + {id} && units <= old(units) <= units + {id}
      ensures units + results == old(units + results)
      ensures events == Events(false, false) ==> units == old(units) && results == old(results)
    {
      if events.finish && id in units {
        Take(Finish(id));
        results := results + {id};
      }
      if events.unload && id in units && id in results {
        Take(Unload(id));
        units := units - {id};
      }
    }

    /** Looks for the exact unit until it shows up or the window closes. */
    method WaitForEvidence(request: nat, record: JobRecord, ghost attempt: nat, polls: seq<Poll>)
        returns (evidence: Evidence)
      requires Closes(polls) && Running(request, PollingUnit(record, attempt, false))
      modifies this`results, this`units, this`steps
      ensures old(steps) <= steps && units + results == old(units + results)
      ensures evidence == Search(polls, record.id in specs, Visible(record.id))
      ensures Running(request,
                      match evidence
                      case Accepted => Completing(record, true)
                      case Indeterminate => Done(Uncertain)
                      case ClearlyAbsent =>
                        if attempt == 0 then Marking(record)
                        else if attempt < 2 then Pc.Launching(record, attempt) else Completing(record, false))
    {
      hide Running;
      var failed, k := false, 0;
      while true
        invariant 0 <= k <= Close(polls) && old(steps) <= steps
        invariant Running(request, PollingUnit(record, attempt, failed))
        invariant units + results == old(units + results)
        invariant Visible(record.id) ==> forall i :: 0 <= i < k ==> !Healthy(polls[i])
        invariant record.id in specs && !Visible(record.id) ==>
                  (failed <==> exists i :: 0 <= i < k && !Healthy(polls[i]))
        invariant record.id !in specs && k > 0 ==> failed
        decreases |polls| - k
      {
        Elapse(request, PollingUnit(record, attempt, failed), record.id, polls[k].before);
        var accepted, absent;
        accepted, absent, failed := Inspect(request, record, attempt, failed, polls[k]);
        if accepted { return Accepted; }
        match polls[k].wake {
          case Continue =>
          case Deadline => return if !failed && absent then ClearlyAbsent else Indeterminate;
          case Cancel => return Indeterminate;
        }
        k := k + 1;
      }
    }

    /** One inspection: first the unit, then the result. */
    method Inspect(request: nat, record: JobRecord, ghost attempt: nat, failed: bool, poll: Poll)
        returns (accepted: bool, absent: bool, failing: bool)
      requires Running(request, PollingUnit(record, attempt, failed))
      modifies this`results, this`units, this`steps
      ensures old(steps) <= steps && units + results == old(units + results)
      ensures accepted == (Healthy(poll) && Visible(record.id))
      ensures absent == (Healthy(poll) && !Visible(record.id) && record.id in specs)
      ensures !accepted ==> failing == (failed || !Healthy(poll) || record.id !in specs)
      ensures Running(request, if accepted then Completing(record, true)
                               else Waiting(record, attempt, failing, absent, poll.wake))
    {
      hide Running, Waiting;
      var loaded := LookAtUnit(request, record, attempt, failed, poll.unitOk, poll.wake);
      if !poll.unitOk { return false, false, true; }
      Elapse(request, PollingResult(record, attempt, failed, loaded), record.id, poll.between);
      accepted, absent, failing := LookAtResult(request, record, attempt, failed, loaded, poll.resultOk, poll.wake);
    }

    method LookAtUnit(request: nat, record: JobRecord, ghost attempt: nat, ghost failed: bool, ok: bool, wake: Window)
        returns (loaded: bool)
      requires Running(request, PollingUnit(record, attempt, failed))
      modifies this`steps
      ensures old(steps) <= steps && loaded == (record.id in units)
      ensures Running(request, if ok then PollingResult(record, attempt, failed, loaded)
                               else Waiting(record, attempt, true, false, wake))
    {
      Move(Choose(ok).(window := wake));
      loaded := record.id in units;
    }

    method LookAtResult(request: nat, record: JobRecord, ghost attempt: nat, failed: bool, loaded: bool, ok: bool,
                        wake: Window)
        returns (accepted: bool, absent: bool, failing: bool)
      requires Running(request, PollingResult(record, attempt, failed, loaded))
      requires if loaded then Visible(record.id) else record.id !in units
      modifies this`steps
      ensures old(steps) <= steps && accepted == (ok && Visible(record.id))
      ensures absent == (ok && !accepted && record.id in specs)
      ensures failing == (failed || !ok || record.id !in specs)
      ensures Running(request, if accepted then Completing(record, true)
                               else Waiting(record, attempt, failing, absent, wake))
    {
      Move(Choose(ok).(window := wake));
      accepted := ok && (loaded || record.id in results);
      failing := failed || !ok || record.id !in specs;
      absent := !accepted && ok && record.id in specs;
    }

    /** One durable write of `record` from a program point that does nothing else. */
    method WriteRecord(request: nat, ghost pc: Pc, record: JobRecord, write: Write, ghost then': Pc,
                       ghost otherwise: Pc) returns (ok: bool)
      requires Running(request, pc) && (write.outcome.Unsynced? ==> platform.syncFaults)
      requires WritesFrom(pc, record, then', otherwise)
      modifies this`file, this`steps
      ensures old(steps) <= steps && ok == write.Succeeds()
      ensures file == old(file).Write(record, write.outcome)
      ensures Running(request, if ok then then' else otherwise)
    {
      file := file.Write(record, write.outcome);
      Move(Choice(true, write.outcome, write.closed, false, Continue));
      ok := write.Succeeds();
    }

    /** Records the outcome. */
    method Complete(request: nat, record: JobRecord, started: bool, env: Environment) returns (reply: Reply)
      requires Running(request, Completing(record, started)) && Admits(platform, env)
      modifies this`file, this`steps
      ensures old(steps) <= steps && Running(request, Done(reply))
      ensures forall accepted :: Matches(E.Complete(record, env, old(file), Loop(accepted, Recorded(started))), reply)
    {
      hide Running;
      var completed := record.(status := Completed(started));
      var ok := WriteRecord(request, Completing(record, started), completed, env.completed,
                            Done(Resolved(record.id, started)), Done(Unpublished(record.id)));
      reply := if ok then Resolved(record.id, started) else Unpublished(record.id);
    }

    /** The reply and the record file are those of the effect. */
    predicate Matches(effect: Effect, reply: Reply)
      reads this
    {
      reply == effect.reply && file == effect.file
    }

    /** One launch: systemd may accept it or not, and report either as a success or not. */
    method LaunchOnce(request: nat, record: JobRecord, ghost attempt: nat, env: Attempt) returns (accepted: bool)
      requires Running(request, Pc.Launching(record, attempt)) && !env.canceled
      modifies this`units, this`log, this`steps
      ensures old(steps) <= steps && accepted == (env.accepted && record.id !in old(units))
      ensures units == if accepted then old(units) + {record.id} else old(units)
      ensures log == old(log) + if accepted then [Launched(record.id), Started(record.id)] else [Launched(record.id)]
      ensures Running(request, if env.clean then Completing(record, true) else PollingUnit(record, attempt + 1, false))
    {
      accepted := env.accepted && record.id !in units;
      log := log + [Launched(record.id)];
      if accepted {
        units := units + {record.id};
        log := log + [Started(record.id)];
      }
      Move(Choice(true, NotPublished, env.clean, accepted, Continue));
    }

    /** One launch, and the search for its unit when the launch reported an error. */
    method LaunchAndLook(request: nat, record: JobRecord, attempt: nat, env: Attempt)
        returns (evidence: Evidence, ghost taken: bool)
      requires Running(request, Pc.Launching(record, attempt)) && !env.canceled && Closes(env.polls) && attempt < 2
      modifies this`results, this`units, this`log, this`steps
      ensures old(steps) <= steps && taken == (env.accepted && record.id !in old(units))
      ensures log == old(log) + if taken then [Launched(record.id), Started(record.id)] else [Launched(record.id)]
      ensures evidence == LookAfter(env, record.id in specs, old(Visible(record.id)), taken)
      ensures evidence.ClearlyAbsent? ==> !Visible(record.id)
      ensures units + results == old(units + results) + if taken then {record.id} else {}
      ensures Running(request,
                      match evidence
                      case Accepted => Completing(record, true)
                      case Indeterminate => Done(Uncertain)
                      case ClearlyAbsent => if attempt == 0 then Pc.Launching(record, 1) else Completing(record, false))
    {
      hide Running, Answers, Settles;
      var accepted := LaunchOnce(request, record, attempt, env);
      taken := accepted;
      if env.clean { return Accepted, taken; }
      evidence := WaitForEvidence(request, record, attempt + 1, env.polls);
    }

    /** Launches up to twice, and a second time only when the first launch reported an error
        and its unit is clearly absent. */
    method LaunchAndComplete(request: nat, record: JobRecord, env: Environment) returns (reply: Reply)
      requires Running(request, Pc.Launching(record, 0)) && Admits(platform, env)
      modifies this`file, this`results, this`units, this`log, this`steps
      ensures old(steps) <= steps && Running(request, Done(reply))
      ensures var loop := LaunchLoop(env.attempts, record.id in specs, old(Visible(record.id)),
                                     record.id in old(units));
              && Matches(E.Complete(record, env, old(file), loop), reply)
              && log == old(log) + Trace(record.id, loop.accepted)
              && units + results == old(units + results) + if true in loop.accepted then {record.id} else {}
    {
      hide Running, Trace, LookAfter, LaunchLoop, Continues, E.Complete;
      ghost var known, done: seq<bool> := record.id in specs, [];
      ghost var loop := LaunchLoop(env.attempts, known, Visible(record.id), record.id in units);
      TraceStarts(record.id);
      LoopStarts(env.attempts, known, Visible(record.id), record.id in units);
      for attempt := 0 to 2
        invariant old(steps) <= steps && file == old(file) && log == old(log) + Trace(record.id, done)
        invariant units + results == old(units + results) + if true in done then {record.id} else {}
        invariant Continues(env.attempts[attempt..], known, Visible(record.id), record.id in units, done, loop)
        invariant Running(request, if attempt < 2 then Pc.Launching(record, attempt) else Completing(record, false))
      {
        LoopAt(env.attempts, attempt, known, Visible(record.id), record.id in units, done, loop);
        if env.attempts[attempt].canceled {
          Refuse(request, record, attempt, env, loop);
          return Refused;
        }
        var evidence;
        ghost var taken;
        evidence, taken := LaunchAndLook(request, record, attempt, env.attempts[attempt]);
        TraceGrows(record.id, done, taken);
        done := done + [taken];
        if evidence.Indeterminate? {
          GivesUp(record, env, file, loop);
          return Uncertain;
        } else if evidence.Accepted? {
          reply := Complete(request, record, true, env);
          return;
        }
      }
      LoopEnds(env.attempts, known, Visible(record.id), record.id in units, done, loop);
      reply := Complete(request, record, false, env);
    }

    ghost method Refuse(request: nat, record: JobRecord, attempt: nat, env: Environment, loop: Loop)
      requires Running(request, Pc.Launching(record, attempt)) && loop.ending.Canceled?
      modifies this`steps
      ensures old(steps) <= steps && Running(request, Done(Refused))
      ensures Matches(E.Complete(record, env, file, loop), Refused)
    {
      Move(Choose(false));
    }

    /** Marks the record as attempted, unless it is, and launches. */
    method MarkAndLaunch(request: nat, record: JobRecord, env: Environment) returns (reply: Reply)
      requires Running(request, Marking(record)) && Admits(platform, env)
      modifies this`file, this`results, this`units, this`log, this`steps
      ensures old(steps) <= steps && Running(request, Done(reply))
      ensures var effect := E.MarkAndLaunch(record, env, old(file), record.id in specs,
                                            old(Visible(record.id)), record.id in old(units));
              && Matches(effect, reply) && log == old(log) + Trace(record.id, effect.accepted)
              && units + results == old(units + results) + if true in effect.accepted then {record.id} else {}
    {
      hide Running, LaunchLoop;
      var marked := record.(attempted := true);
      if record.attempted {
        SkipMark(request, record);
      } else {
        var ok := WriteRecord(request, Marking(record), marked, env.marked, Pc.Launching(marked, 0), Done(Refused));
        if !ok { return Refused; }
      }
      reply := LaunchAndComplete(request, marked, env);
    }

    ghost method SkipMark(request: nat, record: JobRecord)
      requires Running(request, Marking(record)) && record.attempted
      modifies this`steps
      ensures old(steps) <= steps && Running(request, Pc.Launching(record, 0))
    {
      Move(Choose(true));
    }

    /** Resolves a record that is still in progress: what was launched is looked for first. */
    method Reconcile(request: nat, record: JobRecord, env: Environment) returns (reply: Reply)
      requires Running(request, Reconciling(record)) && Admits(platform, env)
      modifies this`file, this`results, this`units, this`log, this`steps
      ensures old(steps) <= steps && Running(request, Done(reply))
      ensures var effect := E.Reconcile(record, env, old(file), record.id in specs,
                                        old(Visible(record.id)), record.id in old(units));
              && Matches(effect, reply) && log == old(log) + Trace(record.id, effect.accepted)
              && units + results == old(units + results) + if true in effect.accepted then {record.id} else {}
    {
      hide Running, E.MarkAndLaunch, Answers, Settles;
      var known := BeginReconciling(request, record);
      if !known { return Uncertain; }
      if record.attempted {
        var evidence := WaitForEvidence(request, record, 0, env.evidence);
        match evidence {
          case Accepted =>
            reply := Complete(request, record, true, env);
            return;
          case Indeterminate =>
            return Uncertain;
          case ClearlyAbsent =>
        }
      }
      reply := MarkAndLaunch(request, record, env);
    }

    method BeginReconciling(request: nat, record: JobRecord) returns (known: bool)
      requires Running(request, Reconciling(record))
      modifies this`steps
      ensures old(steps) <= steps && known == (record.id in specs)
      ensures Running(request, if !known then Done(Uncertain)
                               else if record.attempted then PollingUnit(record, 0, false) else Marking(record))
    {
      Move(Choose(true));
      known := record.id in specs;
    }

    /** Allocates a job, records it, and launches it. */
    method ExecuteNew(request: nat, env: Environment) returns (reply: Reply)
      requires Running(request, Preparing) && Admits(platform, env)
      modifies this
      ensures old(steps) <= steps && initial == old(initial) && legacy == old(legacy) && Running(request, Done(reply))
      ensures var id := old(next);
              var effect := E.ExecuteNew(request, id, env, old(file), old(Visible(id)), id in old(units));
              && Matches(effect, reply) && log == old(log) + Trace(id, effect.accepted)
              && units + results == old(units + results) + if true in effect.accepted then {id} else {}
      ensures specs == if !env.prepareOk then old(specs)
                       else if !env.recorded.Succeeds() then old(specs) - {old(next)}
                       else old(specs)[old(next) := Some(request)]
      ensures next == if env.prepareOk then old(next) + 1 else old(next)
    {
      hide Running, E.MarkAndLaunch;
      var id := next;
      var prepared := PrepareState(request, env.prepareOk);
      if !prepared { return Refused; }
      var record := JobRecord(request, id, false, InProgress);
      var ok := WriteRecord(request, Recording(record), record, env.recorded, Marking(record), Discarding(record));
      if !ok {
        Discard(request, record);
        return Refused;
      }
      reply := MarkAndLaunch(request, record, env);
    }

    method PrepareState(request: nat, ok: bool) returns (prepared: bool)
      requires Running(request, Preparing)
      modifies this`specs, this`next, this`steps
      ensures old(steps) <= steps && prepared == ok
      ensures next == if ok then old(next) + 1 else old(next)
      ensures specs == if ok then old(specs)[old(next) := Some(request)] else old(specs)
      ensures Running(request, if ok then Recording(JobRecord(request, old(next), false, InProgress))
                               else Done(Refused))
    {
      Move(Choose(ok));
      if !ok { return false; }
      specs, next := specs[next := Some(request)], next + 1;
      prepared := true;
    }

    method Discard(request: nat, record: JobRecord)
      requires Running(request, Discarding(record))
      modifies this`specs, this`steps
      ensures old(steps) <= steps && specs == old(specs) - {record.id} && Running(request, Done(Refused))
    {
      Move(Choose(true));
      specs := specs - {record.id};
    }

    /** Looks for a job of an older version under the key, takes it over and resolves it. */
    method ImportLegacy(request: nat, env: Environment) returns (handled: bool, reply: Reply)
      requires Running(request, Importing) && Admits(platform, env)
      modifies this`file, this`results, this`units, this`log, this`steps
      ensures old(steps) <= steps && handled == (!env.legacyOk || legacy.Some?)
      ensures Running(request, if handled then Done(reply) else Preparing)
      ensures !env.legacyOk ==> reply == Refused
      ensures !env.legacyOk || legacy.None? ==>
                file == old(file) && log == old(log) && units == old(units) && results == old(results)
      ensures env.legacyOk && legacy.Some? ==>
                var effect := E.Import(request, legacy.value, env, old(file), specs, old(Visible(legacy.value)));
                && Matches(effect, reply) && log == old(log) + Trace(legacy.value, effect.accepted)
                && units + results == old(units + results) + if true in effect.accepted then {legacy.value} else {}
    {
      hide Running, E.Reconcile;
      handled := true;
      var found := ReadMapping(request, env.legacyOk);
      match found {
        case Handled(r) => return true, r;
        case Nothing => return false, Refused;
        case Imported(record) =>
          var loaded := record.id in units;
          Elapse(request, ImportingResult(record, loaded), record.id, env.between);
          found := InspectLegacy(request, record, loaded, env);
          if found.Handled? { return true, found.reply; }
          reply := Reconcile(request, record, env);
      }
    }

    method ReadMapping(request: nat, ok: bool) returns (found: Mapping)
      requires Running(request, Importing)
      modifies this`steps
      ensures old(steps) <= steps
      ensures found == if !ok then Handled(Refused) else if legacy.None? then Nothing
                       else if legacy.value !in specs || specs[legacy.value].None? then Handled(Uncertain)
                       else if specs[legacy.value] != Some(request) then Handled(Conflict)
                       else Imported(JobRecord(request, legacy.value, true, InProgress))
      ensures Running(request,
                      match found
                      case Handled(reply) => Done(reply)
                      case Imported(record) => ImportingResult(record, record.id in units)
                      case Nothing => Preparing)
    {
      Move(Choose(ok));
      if !ok { return Handled(Refused); }
      if legacy.None? { return Nothing; }
      if legacy.value !in specs || specs[legacy.value].None? { return Handled(Uncertain); }
      if specs[legacy.value] != Some(request) { return Handled(Conflict); }
      found := Imported(JobRecord(request, legacy.value, true, InProgress));
    }

    /** Takes over the job of a legacy mapping, as a finished start if its unit is found. */
    method InspectLegacy(request: nat, record: JobRecord, loaded: bool, env: Environment) returns (found: Mapping)
      requires Running(request, ImportingResult(record, loaded)) && Admits(platform, env)
      requires if loaded then Visible(record.id) else record.id !in units
      modifies this`file, this`steps
      ensures old(steps) <= steps
      ensures found == if !env.inspectOk then Handled(Uncertain)
                       else if !env.imported.Succeeds() then Handled(Refused)
                       else if Visible(record.id) then Handled(Resolved(record.id, true)) else Imported(record)
      ensures file == if !env.inspectOk then old(file)
                      else if Visible(record.id) then
                        old(file).Write(record.(status := Completed(true)), env.imported.outcome)
                      else old(file).Write(record, env.imported.outcome)
      ensures Running(request, if found.Handled? then Done(found.reply) else Reconciling(record))
    {
      if !env.inspectOk {
        Move(Choose(false));
        return Handled(Uncertain);
      }
      if loaded || record.id in results {
        file := file.Write(record.(status := Completed(true)), env.imported.outcome);
        Move(Choice(true, env.imported.outcome, env.imported.closed, false, Continue));
        return Handled(if env.imported.Succeeds() then Resolved(record.id, true) else Refused);
      }
      Move(Choose(true));
      var ok := WriteRecord(request, ImportWriting(record), record, env.imported, Reconciling(record), Done(Refused));
      found := if ok then Imported(record) else Handled(Refused);
    }

    function Stored(): Store
      reads this
    {
      Store(file, legacy, specs, results, units, next)
    }

    /** A keyed `job.start`: the reply, the record and the launches are those of its effect.
        Afterwards the store is valid for the next dispatch. */
    method DispatchJobStart(request: nat, env: Environment) returns (reply: Reply)
      requires Valid() && Admits(platform, env)
      modifies this
      ensures old(steps) <= steps && initial == old(initial) && legacy == old(legacy) && Running(request, Done(reply))
      ensures var effect := Dispatch(request, env, old(Stored()));
              && Matches(effect, reply) && log == old(log) + Trace(effect.id, effect.accepted)
              && units + results == old(units + results) + if true in effect.accepted then {effect.id} else {}
      ensures specs == SpecsAfter(request, env, old(Stored()))
      ensures next == if Allocates(env, old(Stored())) then old(next) + 1 else old(next)
    {
      hide Running, E.Reconcile, E.ExecuteNew, E.Import;
      var found := Read(request, env.readOk);
      if !env.readOk { return Refused; }
      if found.Some? {
        if found.value.request != request { return Conflict; }
        if found.value.status.Completed? { return Replayed(found.value.id, found.value.status.started); }
        reply := Reconcile(request, found.value, env);
        return;
      }
      var handled;
      handled, reply := ImportLegacy(request, env);
      if handled { return; }
      reply := ExecuteNew(request, env);
    }

    /** Two dispatches in a row, with a restart of the process in between: once the first has
        started a body, however it ended, the second one launches nothing if it is answered. It
        gives the same request that very job and refuses any other. */
    method StartAndRetry(request: nat, env: Environment, retry: nat, envRetry: Environment)
        returns (first: Reply, second: Reply)
      requires Valid() && Admits(platform, env) && Admits(platform, envRetry)
      modifies this
      ensures Valid()
      ensures var effect := Dispatch(request, env, old(Stored()));
              true in effect.accepted && envRetry.readOk && Answers(envRetry.evidence) ==>
                && log == old(log) + Trace(effect.id, effect.accepted)
                && if retry != request then second == Conflict else Names(second, effect.id)
    {
      first := DispatchJobStart(request, env);
      LaunchesLeaveTheirRecord(request, env, old(Stored()));
      Restart(false, None);
      ghost var later := Stored();
      second := DispatchJobStart(retry, envRetry);
      ghost var effect := Dispatch(request, env, old(Stored()));
      if true in effect.accepted && envRetry.readOk && Answers(envRetry.evidence) {
        RetryLaunchesNothing(request, env, old(Stored()), retry, envRetry, later);
        assert Trace(Dispatch(retry, envRetry, later).id, []) == [];
      }
    }

    method Read(request: nat, ok: bool) returns (found: Option<JobRecord>)
      requires Valid()
      modifies this`steps
      ensures old(steps) <= steps && found == file.visible
      ensures Running(request,
                      if !ok then Done(Refused) else if found.None? then Importing
                      else if found.value.request != request then Done(Conflict)
                      else if found.value.status.Completed? then
                        Done(Replayed(found.value.id, found.value.status.started))
                      else Reconciling(found.value))
    {
      if Now().pc.Done? { Take(Return); }
      Take(Arrive(request));
      Move(Choose(ok));
      found := file.visible;
    }
  }

  /** What comes of a key's legacy mapping: a reply, a record to go on with, or nothing. */
  datatype Mapping = Handled(reply: Reply) | Imported(record: JobRecord) | Nothing

  lemma GivesUp(record: JobRecord, env: Environment, file: Register<JobRecord>, loop: Loop)
    requires loop.ending.Unresolved?
    ensures E.Complete(record, env, file, loop) == Effect(Uncertain, file, record.id, loop.accepted)
  {
  }

  /** After the launches in `done`, what is left of a launch loop leads to its whole outcome. */
  ghost predicate Continues(left: seq<Attempt>, known: bool, visible: bool, loaded: bool, done: seq<bool>, loop: Loop)
  {
    && AllClose(left)
    && var rest := LaunchLoop(left, known, visible, loaded);
       loop == Loop(done + rest.accepted, rest.ending)
  }

  /** One round of the launch loop. */
  lemma LoopAt(attempts: seq<Attempt>, k: nat, known: bool, visible: bool, loaded: bool, done: seq<bool>, loop: Loop)
    requires AllClose(attempts) && k < |attempts| && Closes(attempts[k].polls)
    requires Continues(attempts[k..], known, visible, loaded, done, loop)
    ensures var taken := attempts[k].accepted && !loaded;
            if attempts[k].canceled then loop == Loop(done, Canceled)
            else
              match LookAfter(attempts[k], known, visible, taken)
              case Accepted => loop == Loop(done + [taken], Recorded(true))
              case Indeterminate => loop == Loop(done + [taken], Unresolved)
              case ClearlyAbsent => Continues(attempts[k + 1..], known, false, false, done + [taken], loop)
  {
    assert attempts[k..][1..] == attempts[k + 1..] && attempts[k..][0] == attempts[k];
    var taken := attempts[k].accepted && !loaded;
    if attempts[k].canceled {
      assert done + [] == done;
    } else if LookAfter(attempts[k], known, visible, taken).ClearlyAbsent? {
      var next := LaunchLoop(attempts[k + 1..], known, false, false);
      assert done + ([taken] + next.accepted) == done + [taken] + next.accepted;
    }
  }

  lemma LoopStarts(attempts: seq<Attempt>, known: bool, visible: bool, loaded: bool)
    requires AllClose(attempts)
    ensures Continues(attempts[0..], known, visible, loaded, [], LaunchLoop(attempts, known, visible, loaded))
  {
    var loop := LaunchLoop(attempts, known, visible, loaded);
    assert attempts[0..] == attempts && [] + loop.accepted == loop.accepted;
  }

  lemma LoopEnds(attempts: seq<Attempt>, known: bool, visible: bool, loaded: bool, done: seq<bool>, loop: Loop)
    requires Continues(attempts[|attempts|..], known, visible, loaded, done, loop)
    ensures loop == Loop(done, Recorded(false))
  {
    assert done + [] == done;
  }

  lemma TraceStarts(id: Id)
    ensures Trace(id, []) == []
  {
  }

  lemma TraceGrows(id: Id, accepted: seq<bool>, last: bool)
    ensures Trace(id, accepted + [last]) ==
            Trace(id, accepted) + if last then [Launched(id), Started(id)] else [Launched(id)]
  {
    assert (accepted + [last])[..|accepted|] == accepted;
  }

  /** The program points at which the next step is one durable write. */
  predicate WritesFrom(pc: Pc, record: JobRecord, then': Pc, otherwise: Pc) {
    match pc
    case ImportWriting(r) => record == r && then' == Reconciling(r) && otherwise == Done(Refused)
    case Recording(r) => record == r && then' == Marking(r) && otherwise == Discarding(r)
    case Marking(r) =>
      !r.attempted && record == r.(attempted := true) && then' == Pc.Launching(record, 0) && otherwise == Done(Refused)
    case Completing(r, started) =>
      record == r.(status := Completed(started)) && then' == Done(Resolved(r.id, started))
          && otherwise == Done(Unpublished(r.id))
    case _ => false
  }
}
