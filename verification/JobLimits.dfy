/** Keyed `job.start` where it does not keep its promises: for each promise of `JobRuns` that
    needs a run to be spared some fault, the runs that break it, and so the exact platforms on
    which it holds. */
module JobLimits {
  import opened Common
  import opened Register
  import opened JobProtocol
  import opened JobRuns

  // ----- the promises -----

  ghost predicate LaunchesAreRecorded(p: Platform) {
    forall s, steps, step ::
      Init(s) && Legal(p, s, steps) && Enabled(p, Execute(p, s, steps), step) && IsLaunch(Execute(p, s, steps), step)
      ==> BoundAndOpen(Execute(p, s, steps), Execute(p, s, steps).pc.record.id)
  }

  /** Since the key was last pruned or forgotten, all launches under it named the recorded id. */
  ghost predicate OneUnit(p: Platform) {
    forall s, steps, id ::
      Init(s) && Legal(p, s, steps) && id in Launches(Execute(p, s, steps).log) ==> Bound(Execute(p, s, steps), id)
  }

  ghost predicate BodiesRunOnce(p: Platform) {
    forall s, steps, id :: Init(s) && Legal(p, s, steps) ==> Starts(Execute(p, s, steps).log, id) <= 1
  }

  /** Since the key was last pruned or forgotten, at most one body has started under it. */
  ghost predicate OneBodyPerKey(p: Platform) {
    forall s, steps :: Init(s) && Legal(p, s, steps) ==> |Begun(Execute(p, s, steps).log)| <= 1
  }

  /** A start that is recorded as failed never ran. */
  ghost predicate FailedStartsNeverRan(p: Platform) {
    forall s, steps, record :: Init(s) && Legal(p, s, steps) && Failed(Execute(p, s, steps), record)
      ==> Starts(Execute(p, s, steps).log, record.id) == 0
  }

  predicate Failed(s: State, record: JobRecord) {
    Some(record) in s.file.possible && record.status == Completed(false)
  }

  // ----- the runs that break them -----

  const GO := Choice(true, Published, true, false, Deadline)
  const ACCEPT := GO.(accepted := true)
  const FRESH := State(Idle, 0, Missing(), None, map[], {}, {}, 0, {}, [])
  const MARKED := JobRecord(7, 0, true, InProgress)
  const UNMARKED := JobRecord(7, 0, false, InProgress)

  lemma NothingYet(p: Platform)
    ensures Legal(p, FRESH, []) && Execute(p, FRESH, []) == FRESH
  {
  }

  /** A first dispatch up to the write of the launch mark. */
  lemma ToMark(p: Platform) returns (steps: seq<Step>)
    ensures Legal(p, FRESH, steps)
    ensures Execute(p, FRESH, steps) == FRESH.(pc := Marking(UNMARKED), request := 7, next := 1,
                                               specs := map[0 := Some(7)],
                                               file := Register(Some(UNMARKED), {Some(UNMARKED)}))
  {
    steps := [];
    var s := FRESH;
    s := Append(p, FRESH, steps, Arrive(7)); steps := steps + [Arrive(7)];
    s := Append(p, FRESH, steps, Work(GO)); steps := steps + [Work(GO)];
    s := Append(p, FRESH, steps, Work(GO)); steps := steps + [Work(GO)];
    s := Append(p, FRESH, steps, Work(GO)); steps := steps + [Work(GO)];
    s := Append(p, FRESH, steps, Work(GO)); steps := steps + [Work(GO)];
  }

  /** A dispatch that finds the mark and no trace of the unit, up to its launch. */
  lemma ToRelaunch(p: Platform, steps: seq<Step>) returns (more: seq<Step>)
    requires Legal(p, FRESH, steps)
    requires var s := Execute(p, FRESH, steps);
             s.pc.Idle? && s.file.visible == Some(MARKED) && 0 in s.specs && 0 !in s.units + s.results
    ensures Legal(p, FRESH, more)
    ensures Execute(p, FRESH, more) == Execute(p, FRESH, steps).(pc := Launching(MARKED, 0), request := 7)
  {
    hide Legal, Execute;
    var s;
    more := steps;
    s := Append(p, FRESH, more, Arrive(7)); more := more + [Arrive(7)];
    s := Append(p, FRESH, more, Work(GO)); more := more + [Work(GO)];
    s := Append(p, FRESH, more, Work(GO)); more := more + [Work(GO)];
    s := Append(p, FRESH, more, Work(GO)); more := more + [Work(GO)];
    s := Append(p, FRESH, more, Work(GO)); more := more + [Work(GO)];
    s := Append(p, FRESH, more, Work(GO)); more := more + [Work(GO)];
  }

  /** A directory sync that fails after the rename leaves the launch mark visible but not
      safe; the next dispatch trusts it and launches without writing it again. */
  lemma UnsafeMark(p: Platform) returns (steps: seq<Step>)
    requires p.syncFaults
    ensures Legal(p, FRESH, steps)
    ensures var s := Execute(p, FRESH, steps);
            s == FRESH.(pc := Launching(MARKED, 0), request := 7, next := 1, specs := map[0 := Some(7)],
                        file := Register(Some(MARKED), {Some(UNMARKED), Some(MARKED)}))
  {
    hide Legal, Execute;
    steps := ToMark(p);
    var s := Append(p, FRESH, steps, Work(GO.(outcome := Unsynced))); steps := steps + [Work(GO.(outcome := Unsynced))];
    s := Append(p, FRESH, steps, Return); steps := steps + [Return];
    steps := ToRelaunch(p, steps);
  }

  /** The unit launched under that mark runs, ends and is unloaded; then a power loss brings
      back the record without the mark. */
  lemma MarkLost(p: Platform) returns (steps: seq<Step>)
    requires p.syncFaults
    ensures Legal(p, FRESH, steps)
    ensures Execute(p, FRESH, steps) == FRESH.(request := 7, next := 1, specs := map[0 := Some(7)], results := {0},
                                               file := Register(Some(UNMARKED), {Some(UNMARKED)}),
                                               log := [Launched(0), Started(0)])
  {
    hide Legal, Execute;
    steps := UnsafeMark(p);
    var s := Append(p, FRESH, steps, Work(ACCEPT)); steps := steps + [Work(ACCEPT)];
    s := Append(p, FRESH, steps, Finish(0)); steps := steps + [Finish(0)];
    s := Append(p, FRESH, steps, Unload(0)); steps := steps + [Unload(0)];
    var crash := Crash(true, Some(UNMARKED), map[0 := Some(7)]);
    s := Append(p, FRESH, steps, crash); steps := steps + [crash];
    assert s.units == {} && s.log == [Launched(0), Started(0)];
  }

  /** The next dispatch sees no mark and launches again without looking for the unit. */
  lemma SyncFaultRunsTwice(p: Platform) returns (steps: seq<Step>)
    requires p.syncFaults
    ensures Legal(p, FRESH, steps) && Starts(Execute(p, FRESH, steps).log, 0) == 2
  {
    hide Legal, Execute;
    steps := MarkLost(p);
    var s := Append(p, FRESH, steps, Arrive(7)); steps := steps + [Arrive(7)];
    s := Append(p, FRESH, steps, Work(GO)); steps := steps + [Work(GO)];
    s := Append(p, FRESH, steps, Work(GO)); steps := steps + [Work(GO)];
    s := Append(p, FRESH, steps, Work(GO)); steps := steps + [Work(GO)];
    s := Append(p, FRESH, steps, Work(ACCEPT)); steps := steps + [Work(ACCEPT)];
    TwoStarts(s.log);
  }

  lemma TwoStarts(log: seq<Event>)
    requires log == [Launched(0), Started(0), Launched(0), Started(0)]
    ensures Starts(log, 0) == 2
  {
    NeverStarted([Launched(0)], 0);
    LogAfter([Launched(0)], Started(0), 0);
    LogAfter([Launched(0), Started(0)], Launched(0), 0);
    LogAfter([Launched(0), Started(0), Launched(0)], Started(0), 0);
    assert [Launched(0), Started(0), Launched(0)] + [Started(0)] == log;
    assert [Launched(0), Started(0)] + [Launched(0)] == [Launched(0), Started(0), Launched(0)];
    assert [Launched(0)] + [Started(0)] == [Launched(0), Started(0)];
  }

  /** A power loss while the unit runs takes away the unit and leaves no result: the next
      dispatch finds it clearly absent and launches it again. */
  lemma UnitLossRunsTwice(p: Platform) returns (steps: seq<Step>)
    requires p.unitLoss
    ensures Legal(p, FRESH, steps) && Starts(Execute(p, FRESH, steps).log, 0) == 2
    ensures Execute(p, FRESH, steps).log == [Launched(0), Started(0), Launched(0), Started(0)]
  {
    hide Legal, Execute;
    steps := ToMark(p);
    var s := Append(p, FRESH, steps, Work(GO)); steps := steps + [Work(GO)];
    s := Append(p, FRESH, steps, Work(ACCEPT)); steps := steps + [Work(ACCEPT)];
    var crash := Crash(true, Some(MARKED), map[0 := Some(7)]);
    s := Append(p, FRESH, steps, crash); steps := steps + [crash];
    steps := ToRelaunch(p, steps);
    s := Append(p, FRESH, steps, Work(ACCEPT)); steps := steps + [Work(ACCEPT)];
    TwoStarts(s.log);
  }

  const OTHER := JobRecord(7, 1, false, InProgress)
  const OTHER_MARKED := JobRecord(7, 1, true, InProgress)

  /** The first record of a key is published without its directory sync, and survives a crash
      before the job is discarded. */
  lemma LeftBehind(p: Platform) returns (steps: seq<Step>)
    requires p.syncFaults
    ensures Legal(p, FRESH, steps)
    ensures Execute(p, FRESH, steps) == FRESH.(
              request := 7, next := 1, specs := map[0 := Some(7)],
              file := Register(Some(UNMARKED), {None, Some(UNMARKED)}))
  {
    hide Legal, Execute;
    var unsynced, crash := Work(GO.(outcome := Unsynced)), Crash(false, None, map[0 := Some(7)]);
    steps := [];
    NothingYet(p);
    var s := Append(p, FRESH, steps, Arrive(7)); steps := steps + [Arrive(7)];
    s := Append(p, FRESH, steps, Work(GO)); steps := steps + [Work(GO)];
    s := Append(p, FRESH, steps, Work(GO)); steps := steps + [Work(GO)];
    s := Append(p, FRESH, steps, Work(GO)); steps := steps + [Work(GO)];
    s := Append(p, FRESH, steps, unsynced); steps := steps + [unsynced];
    s := Append(p, FRESH, steps, crash); steps := steps + [crash];
  }

  /** The launch mark on that record goes the same way, and the unit is launched. */
  lemma UnsafeRecord(p: Platform) returns (steps: seq<Step>)
    requires p.syncFaults
    ensures Legal(p, FRESH, steps)
    ensures Execute(p, FRESH, steps) == FRESH.(
              pc := Launching(MARKED, 0), request := 7, next := 1, specs := map[0 := Some(7)],
              file := Register(Some(MARKED), {None, Some(UNMARKED), Some(MARKED)}))
  {
    hide Legal, Execute;
    var unsynced := Work(GO.(outcome := Unsynced));
    steps := LeftBehind(p);
    var s := Append(p, FRESH, steps, Arrive(7)); steps := steps + [Arrive(7)];
    s := Append(p, FRESH, steps, Work(GO)); steps := steps + [Work(GO)];
    s := Append(p, FRESH, steps, Work(GO)); steps := steps + [Work(GO)];
    s := Append(p, FRESH, steps, unsynced); steps := steps + [unsynced];
    s := Append(p, FRESH, steps, Return); steps := steps + [Return];
    assert s.file.possible == {None, Some(UNMARKED), Some(MARKED)};
    steps := ToRelaunch(p, steps);
  }

  /** The unit launched under that record ends, and a power loss takes the record with it. */
  lemma RecordLost(p: Platform) returns (steps: seq<Step>)
    requires p.syncFaults
    ensures Legal(p, FRESH, steps)
    ensures Execute(p, FRESH, steps) == FRESH.(
              request := 7, next := 1, specs := map[0 := Some(7)], results := {0}, log := [Launched(0), Started(0)])
  {
    hide Legal, Execute;
    steps := UnsafeRecord(p);
    var s := Append(p, FRESH, steps, Work(ACCEPT)); steps := steps + [Work(ACCEPT)];
    s := Append(p, FRESH, steps, Finish(0)); steps := steps + [Finish(0)];
    s := Append(p, FRESH, steps, Unload(0)); steps := steps + [Unload(0)];
    var crash := Crash(true, None, map[0 := Some(7)]);
    s := Append(p, FRESH, steps, crash); steps := steps + [crash];
    assert s.units == {} && s.log == [Launched(0), Started(0)];
  }

  /** The next dispatch knows of nothing and draws another id. */
  lemma OtherRecord(p: Platform) returns (steps: seq<Step>)
    requires p.syncFaults
    ensures Legal(p, FRESH, steps)
    ensures var s := Execute(p, FRESH, steps);
            && s.pc == Marking(OTHER) && s.file == Register(Some(OTHER), {Some(OTHER)})
            && s.units == {} && s.log == [Launched(0), Started(0)]
  {
    hide Legal, Execute;
    steps := RecordLost(p);
    var s := Append(p, FRESH, steps, Arrive(7)); steps := steps + [Arrive(7)];
    s := Append(p, FRESH, steps, Work(GO)); steps := steps + [Work(GO)];
    s := Append(p, FRESH, steps, Work(GO)); steps := steps + [Work(GO)];
    s := Append(p, FRESH, steps, Work(GO)); steps := steps + [Work(GO)];
    s := Append(p, FRESH, steps, Work(GO)); steps := steps + [Work(GO)];
  }

  /** So the job of the key runs again: no unit has started twice, but two units have run under
      one key. */
  lemma SyncFaultStartsTwoUnits(p: Platform) returns (steps: seq<Step>)
    requires p.syncFaults
    ensures Legal(p, FRESH, steps)
    ensures var s := Execute(p, FRESH, steps);
            && s.log == [Launched(0), Started(0), Launched(1), Started(1)]
            && s.file == Register(Some(OTHER_MARKED), {Some(OTHER_MARKED)})
  {
    hide Legal, Execute;
    steps := OtherRecord(p);
    var s := Append(p, FRESH, steps, Work(GO)); steps := steps + [Work(GO)];
    s := Append(p, FRESH, steps, Work(ACCEPT)); steps := steps + [Work(ACCEPT)];
  }

  lemma BegunIn(log: seq<Event>, a: Id, b: Id)
    requires log == [Launched(a), Started(a), Launched(b), Started(b)]
    ensures Begun(log) == [a, b] && Launches(log) == [a, b]
  {
    var l0, l1, l2, l3: seq<Event> :=
        [], [Launched(a)], [Launched(a), Started(a)], [Launched(a), Started(a), Launched(b)];
    assert l0 + [Launched(a)] == l1 && l1 + [Started(a)] == l2 && l2 + [Launched(b)] == l3 && l3 + [Started(b)] == log;
    BegunAfter(l0, Launched(a));
    BegunAfter(l1, Started(a));
    BegunAfter(l2, Launched(b));
    BegunAfter(l3, Started(b));
    LogAfter(l0, Launched(a), 0);
    LogAfter(l1, Started(a), 0);
    LogAfter(l2, Launched(b), 0);
    LogAfter(l3, Started(b), 0);
  }

  const REJECT := GO.(closed := false)

  /** A launch that is refused, and the search for its unit. */
  lemma FailOnce(p: Platform, steps: seq<Step>, attempt: nat) returns (more: seq<Step>)
    requires Legal(p, FRESH, steps) && attempt < 2
    requires var s := Execute(p, FRESH, steps);
             s.pc == Launching(MARKED, attempt) && 0 in s.specs && 0 !in s.units + s.results
    ensures Legal(p, FRESH, more)
    ensures var s := Execute(p, FRESH, steps);
            Execute(p, FRESH, more) == s.(
              pc := if attempt == 0 then Launching(MARKED, 1) else Completing(MARKED, false),
              log := s.log + [Launched(0)])
  {
    hide Legal, Execute;
    var s;
    more := steps;
    s := Append(p, FRESH, more, Work(REJECT)); more := more + [Work(REJECT)];
    s := Append(p, FRESH, more, Work(GO)); more := more + [Work(GO)];
    s := Append(p, FRESH, more, Work(GO)); more := more + [Work(GO)];
  }

  /** A dispatch about to launch a unit that cannot be seen, both of whose launches are refused,
      records the start as failed. */
  lemma FailTwice(p: Platform, steps: seq<Step>) returns (more: seq<Step>)
    requires Legal(p, FRESH, steps)
    requires var s := Execute(p, FRESH, steps);
             s.pc == Launching(MARKED, 0) && 0 in s.specs && 0 !in s.units + s.results
    ensures Legal(p, FRESH, more)
    ensures Failed(Execute(p, FRESH, more), MARKED.(status := Completed(false)))
    ensures Execute(p, FRESH, more).log == Execute(p, FRESH, steps).log + [Launched(0)] + [Launched(0)]
  {
    hide Legal, Execute;
    more := FailOnce(p, steps, 0);
    more := FailOnce(p, more, 1);
    var s := Append(p, FRESH, more, Work(GO)); more := more + [Work(GO)];
  }

  lemma OneStart(log: seq<Event>)
    requires log == [Launched(0), Started(0)]
    ensures Starts(log + [Launched(0)] + [Launched(0)], 0) == 1
  {
    NeverStarted([Launched(0)], 0);
    LogAfter([Launched(0)], Started(0), 0);
    LogAfter(log, Launched(0), 0);
    LogAfter(log + [Launched(0)], Launched(0), 0);
    assert [Launched(0)] + [Started(0)] == log;
  }

  /** A power loss takes the unit, and the launches that follow are refused. */
  lemma UnitLossFailsAfterStart(p: Platform) returns (steps: seq<Step>)
    requires p.unitLoss
    ensures Legal(p, FRESH, steps) && Failed(Execute(p, FRESH, steps), MARKED.(status := Completed(false)))
    ensures Starts(Execute(p, FRESH, steps).log, 0) == 1
  {
    hide Legal, Execute;
    steps := ToMark(p);
    var s := Append(p, FRESH, steps, Work(GO)); steps := steps + [Work(GO)];
    s := Append(p, FRESH, steps, Work(ACCEPT)); steps := steps + [Work(ACCEPT)];
    var crash := Crash(true, Some(MARKED), map[0 := Some(7)]);
    s := Append(p, FRESH, steps, crash); steps := steps + [crash];
    assert s.log == [Launched(0), Started(0)];
    OneStart(s.log);
    steps := ToRelaunch(p, steps);
    steps := FailTwice(p, steps);
  }

  /** The completion of a start is published without its directory sync. */
  lemma UnsafeCompletion(p: Platform) returns (steps: seq<Step>)
    requires p.syncFaults
    ensures Legal(p, FRESH, steps)
    ensures var completed := MARKED.(status := Completed(true));
            Execute(p, FRESH, steps) == FRESH.(
              request := 7, next := 1, specs := map[0 := Some(7)], units := {0}, log := [Launched(0), Started(0)],
              file := Register(Some(completed), {Some(MARKED), Some(completed)}))
  {
    hide Legal, Execute;
    var unsynced := Work(GO.(outcome := Unsynced));
    steps := ToMark(p);
    var s := Append(p, FRESH, steps, Work(GO)); steps := steps + [Work(GO)];
    s := Append(p, FRESH, steps, Work(ACCEPT)); steps := steps + [Work(ACCEPT)];
    assert s.log == [Launched(0), Started(0)];
    s := Append(p, FRESH, steps, unsynced); steps := steps + [unsynced];
    s := Append(p, FRESH, steps, Return); steps := steps + [Return];
  }

  /** Then its record is pruned, its job is forgotten, and a power loss brings the record back
      in progress. */
  lemma CompletionLost(p: Platform) returns (steps: seq<Step>)
    requires p.syncFaults
    ensures Legal(p, FRESH, steps)
    ensures var s := Execute(p, FRESH, steps);
            && s.pc.Idle? && s.file.visible == Some(MARKED) && 0 in s.specs && 0 !in s.units + s.results
            && s.log == [Launched(0), Started(0), Released]
  {
    hide Legal, Execute;
    var crash := Crash(true, Some(MARKED), map[0 := Some(7)]);
    steps := UnsafeCompletion(p);
    var s := Append(p, FRESH, steps, Finish(0)); steps := steps + [Finish(0)];
    s := Append(p, FRESH, steps, Unload(0)); steps := steps + [Unload(0)];
    s := Append(p, FRESH, steps, Prune); steps := steps + [Prune];
    s := Append(p, FRESH, steps, Forget(0, false)); steps := steps + [Forget(0, false)];
    s := Append(p, FRESH, steps, crash); steps := steps + [crash];
  }

  lemma SyncFaultFailsAfterStart(p: Platform) returns (steps: seq<Step>)
    requires p.syncFaults
    ensures Legal(p, FRESH, steps) && Failed(Execute(p, FRESH, steps), MARKED.(status := Completed(false)))
    ensures Starts(Execute(p, FRESH, steps).log, 0) == 1
  {
    hide Legal, Execute;
    steps := CompletionLost(p);
    var log := Execute(p, FRESH, steps).log;
    steps := ToRelaunch(p, steps);
    steps := FailTwice(p, steps);
    NeverStarted([Launched(0)], 0);
    LogAfter([Launched(0)], Started(0), 0);
    LogAfter([Launched(0), Started(0)], Released, 0);
    LogAfter(log, Launched(0), 0);
    LogAfter(log + [Launched(0)], Launched(0), 0);
    assert [Launched(0)] + [Started(0)] == [Launched(0), Started(0)] && [Launched(0), Started(0)] + [Released] == log;
  }

  // ----- exactly when the promises hold -----

  /** Every launch happens under a record that names it and marks it, now and after any power
      loss, exactly when the directory sync of a state file cannot fail. */
  lemma LaunchesAreRecordedExactly(p: Platform)
    ensures LaunchesAreRecorded(p) <==> !p.syncFaults
  {
    if p.syncFaults {
      var steps := UnsafeMark(p);
      assert Init(FRESH) && IsLaunch(Execute(p, FRESH, steps), Work(GO))
          && Enabled(p, Execute(p, FRESH, steps), Work(GO));
      assert Some(UNMARKED) in Execute(p, FRESH, steps).file.possible;
      assert !BoundAndOpen(Execute(p, FRESH, steps), 0);
    } else {
      forall s, steps, step | Init(s) && Legal(p, s, steps) && Enabled(p, Execute(p, s, steps), step)
                              && IsLaunch(Execute(p, s, steps), step)
        ensures BoundAndOpen(Execute(p, s, steps), Execute(p, s, steps).pc.record.id)
      {
        PlatformSyncs(p, s, steps);
        LaunchIsRecorded(p, s, steps, step);
      }
    }
  }

  /** One key, one unit, exactly when that sync cannot fail. */
  lemma OneUnitPerKeyExactly(p: Platform)
    ensures OneUnit(p) <==> !p.syncFaults
  {
    if p.syncFaults {
      var steps := SyncFaultStartsTwoUnits(p);
      BegunIn(Execute(p, FRESH, steps).log, 0, 1);
      assert Init(FRESH) && 0 in Launches(Execute(p, FRESH, steps).log);
      assert Some(OTHER_MARKED) in Execute(p, FRESH, steps).file.possible;
      assert !Bound(Execute(p, FRESH, steps), 0);
    } else {
      forall s, steps, id | Init(s) && Legal(p, s, steps) && id in Launches(Execute(p, s, steps).log)
        ensures Bound(Execute(p, s, steps), id)
      {
        PlatformSyncs(p, s, steps);
        OneUnitPerKey(p, s, steps, id);
      }
    }
  }

  /** No body ever runs twice, exactly when that sync cannot fail and a power loss does not
      take a running unit with it. */
  lemma BodiesRunOnceExactly(p: Platform)
    ensures BodiesRunOnce(p) <==> p.Sound()
  {
    if p.Sound() {
      forall s, steps, id | Init(s) && Legal(p, s, steps) ensures Starts(Execute(p, s, steps).log, id) <= 1 {
        PlatformSyncs(p, s, steps);
        PlatformSpares(p, s, steps);
        SyncedRestores(p, s, steps);
        BodyRunsOnce(p, s, steps);
      }
    } else {
      var steps;
      if p.syncFaults { steps := SyncFaultRunsTwice(p); } else { steps := UnitLossRunsTwice(p); }
      assert Init(FRESH) && Legal(p, FRESH, steps) && Starts(Execute(p, FRESH, steps).log, 0) == 2;
    }
  }

  /** One key, one body, under the same condition. */
  lemma OneBodyPerKeyExactly(p: Platform)
    ensures OneBodyPerKey(p) <==> p.Sound()
  {
    if p.Sound() {
      forall s, steps | Init(s) && Legal(p, s, steps) ensures |Begun(Execute(p, s, steps).log)| <= 1 {
        PlatformSyncs(p, s, steps);
        PlatformSpares(p, s, steps);
        SyncedRestores(p, s, steps);
        BodyRunsOnce(p, s, steps);
      }
    } else {
      var steps;
      if p.syncFaults { steps := SyncFaultStartsTwoUnits(p); } else { steps := UnitLossRunsTwice(p); }
      BegunIn(Execute(p, FRESH, steps).log, 0, if p.syncFaults then 1 else 0);
      assert Init(FRESH) && Legal(p, FRESH, steps) && |Begun(Execute(p, FRESH, steps).log)| == 2;
    }
  }

  /** A start recorded as failed never ran, under the same condition again. */
  lemma FailedStartsNeverRanExactly(p: Platform)
    ensures FailedStartsNeverRan(p) <==> p.Sound()
  {
    if p.Sound() {
      forall s, steps, record | Init(s) && Legal(p, s, steps) && Failed(Execute(p, s, steps), record)
        ensures Starts(Execute(p, s, steps).log, record.id) == 0
      {
        PlatformSyncs(p, s, steps);
        PlatformSpares(p, s, steps);
        FailedStartNeverRan(p, s, steps, record);
      }
    } else {
      var steps;
      if p.syncFaults { steps := SyncFaultFailsAfterStart(p); } else { steps := UnitLossFailsAfterStart(p); }
      var record := MARKED.(status := Completed(false));
      assert Init(FRESH) && Failed(Execute(p, FRESH, steps), record)
          && Starts(Execute(p, FRESH, steps).log, record.id) == 1;
    }
  }
}
