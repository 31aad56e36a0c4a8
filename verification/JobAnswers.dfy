/** What a keyed `job.start` answers and launches, said by what it finds and by what happens to
    it, case by case. */
module JobAnswers {
  import opened Common
  import opened Register
  import opened JobProtocol
  import opened JobEffects

  const WRITTEN := Write(Published, true)

  /** All looks at the unit are answered, and the last of them is ended by the deadline. */
  predicate AnsweredUntilDeadline(polls: seq<Poll>) {
    exists n :: 0 <= n < |polls| && EndsAt(polls, n)
  }

  predicate EndsAt(polls: seq<Poll>, n: nat)
    requires n < |polls|
  {
    && polls[n].wake.Deadline? && (forall i :: 0 <= i < n ==> polls[i].wake.Continue?)
    && (forall i :: 0 <= i <= n ==> polls[i].unitOk && polls[i].resultOk)
  }

  /** Some look at the unit is answered before the window closes. */
  predicate AnsweredOnce(polls: seq<Poll>) {
    exists n :: 0 <= n < |polls| && AnsweredAt(polls, n)
  }

  predicate AnsweredAt(polls: seq<Poll>, n: nat)
    requires n < |polls|
  {
    polls[n].unitOk && polls[n].resultOk && forall i :: 0 <= i < n ==> polls[i].wake.Continue?
  }

  lemma SettlesExactly(polls: seq<Poll>)
    requires Closes(polls)
    ensures Settles(polls) <==> AnsweredUntilDeadline(polls)
  {
    var last := Close(polls);
    assert Settles(polls) ==> EndsAt(polls, last);
    if AnsweredUntilDeadline(polls) {
      var n :| 0 <= n < |polls| && EndsAt(polls, n);
      assert n == last;
    }
  }

  lemma AnswersExactly(polls: seq<Poll>)
    requires Closes(polls)
    ensures Answers(polls) <==> AnsweredOnce(polls)
  {
    if Answers(polls) {
      var n :| 0 <= n <= Close(polls) && Healthy(polls[n]);
      assert AnsweredAt(polls, n);
    }
    if AnsweredOnce(polls) {
      var n :| 0 <= n < |polls| && AnsweredAt(polls, n);
      assert n <= Close(polls) && Healthy(polls[n]);
    }
  }

  lemma WindowsExactly(env: Environment)
    requires Ends(env)
    ensures Settles(env.evidence) <==> AnsweredUntilDeadline(env.evidence)
    ensures Answers(env.evidence) <==> AnsweredOnce(env.evidence)
    ensures forall attempt :: attempt in env.attempts ==>
              && (Settles(attempt.polls) <==> AnsweredUntilDeadline(attempt.polls))
              && (Answers(attempt.polls) <==> AnsweredOnce(attempt.polls))
  {
    SettlesExactly(env.evidence);
    AnswersExactly(env.evidence);
    forall attempt | attempt in env.attempts
      ensures Settles(attempt.polls) <==> AnsweredUntilDeadline(attempt.polls)
      ensures Answers(attempt.polls) <==> AnsweredOnce(attempt.polls)
    {
      SettlesExactly(attempt.polls);
      AnswersExactly(attempt.polls);
    }
  }

  /** How a launch that left its unit to be `seen` or not goes on: it counts as started, as known
      to have left no unit, or as neither. */
  predicate Started(attempt: Attempt, seen: bool) {
    attempt.clean || (seen && AnsweredOnce(attempt.polls))
  }

  predicate LeftNothing(attempt: Attempt, seen: bool) {
    !attempt.clean && !seen && AnsweredUntilDeadline(attempt.polls)
  }

  /** The second round, after a launch that left nothing. */
  lemma SecondRound(attempt: Attempt)
    requires Closes(attempt.polls)
    ensures LaunchLoop([attempt], true, false, false) ==
            if attempt.canceled then Loop([], Canceled)
            else if Started(attempt, attempt.accepted) then Loop([attempt.accepted], Recorded(true))
            else if LeftNothing(attempt, attempt.accepted) then Loop([attempt.accepted], Recorded(false))
            else Loop([attempt.accepted], Unresolved)
  {
    SettlesExactly(attempt.polls);
    AnswersExactly(attempt.polls);
    hide Answers, Settles, AnsweredOnce, AnsweredUntilDeadline;
    assert LaunchLoop([], true, false, false) == Loop([], Recorded(false));
    assert [attempt][1..] == [];
  }

  /** The two rounds of the launch loop for a job whose directory is there. */
  lemma LoopExactly(env: Environment, visible: bool, loaded: bool)
    requires Ends(env) && (loaded ==> visible)
    ensures var first, second := env.attempts[0], env.attempts[1];
            var result := LaunchLoop(env.attempts, true, visible, loaded);
            var seen := visible || first.accepted;
            if first.canceled then result == Loop([], Canceled)
            else
              && result.accepted != [] && result.accepted[0] == (first.accepted && !loaded)
              && (|result.accepted| == 2 <==> LeftNothing(first, seen) && !second.canceled)
              && (Started(first, seen) ==> |result.accepted| == 1 && result.ending == Recorded(true))
              && (!Started(first, seen) && !LeftNothing(first, seen) ==>
                    |result.accepted| == 1 && result.ending == Unresolved)
              && (LeftNothing(first, seen) && second.canceled ==> |result.accepted| == 1 && result.ending == Canceled)
              && (|result.accepted| == 2 ==>
                    && result.accepted[1] == second.accepted
                    && result.ending == if Started(second, second.accepted) then Recorded(true)
                                        else if LeftNothing(second, second.accepted) then Recorded(false)
                                        else Unresolved)
  {
    var first, second := env.attempts[0], env.attempts[1];
    assert first in env.attempts && second in env.attempts;
    SettlesExactly(first.polls);
    AnswersExactly(first.polls);
    SecondRound(second);
    hide Answers, Settles, AnsweredOnce, AnsweredUntilDeadline;
    assert env.attempts[1..] == [second];
  }

  /** The job of a record in progress with its directory: a launch that was attempted is only
      repeated when the unit is known to be absent, and then it is repeated; one that was not is
      made as soon as the mark is written. */
  lemma ResumesExactly(request: nat, env: Environment, store: Store, id: Id, attempted: bool)
    requires Ends(env) && env.readOk && store.file.visible == Some(JobRecord(request, id, attempted, InProgress))
    requires id in store.specs
    ensures var effect, first := Dispatch(request, env, store), env.attempts[0];
            var seen := id in store.units || id in store.results;
            && effect.id == id
            && (effect.accepted != [] <==>
                  && !first.canceled
                  && if attempted then !seen && AnsweredUntilDeadline(env.evidence) else env.marked == WRITTEN)
            && (effect.accepted == [] ==>
                  effect.reply ==
                  if !attempted then Refused
                  else if seen && AnsweredOnce(env.evidence) then
                    if env.completed == WRITTEN then Resolved(id, true) else Unpublished(id)
                  else if !seen && AnsweredUntilDeadline(env.evidence) then Refused
                  else Uncertain)
            && (attempted && seen && AnsweredOnce(env.evidence) ==>
                  effect.file == store.file.Write(JobRecord(request, id, true, Completed(true)), env.completed.outcome))
            && (attempted && effect.reply in {Refused, Uncertain} ==> effect.file == store.file)
  {
    WindowsExactly(env);
    LoopExactly(env, if attempted then false else store.Visible(id), if attempted then false else id in store.units);
    hide Answers, Settles, AnsweredOnce, AnsweredUntilDeadline, LaunchLoop;
  }

  /** A record in progress whose job directory is gone is never touched again. */
  lemma MissingDirectoryStaysUncertain(request: nat, env: Environment, store: Store)
    requires Ends(env) && env.readOk && store.file.visible.Some? && store.file.visible.value.id !in store.specs
    requires store.file.visible.value.status.InProgress? && store.file.visible.value.request == request
    ensures var effect := Dispatch(request, env, store);
            effect.reply == Uncertain && effect.accepted == [] && effect.file == store.file
  {
  }

  /** A record that does not ask for a launch: a conflict, a replay, or one that cannot be read. */
  lemma RecordsAnswerExactly(request: nat, env: Environment, store: Store)
    requires Ends(env)
    ensures var effect := Dispatch(request, env, store);
            && (!env.readOk ==> effect.reply == Refused && effect.accepted == [] && effect.file == store.file)
            && (env.readOk && store.file.visible.Some? ==>
                  var record := store.file.visible.value;
                  && (record.request != request ==>
                        effect.reply == Conflict && effect.accepted == [] && effect.file == store.file)
                  && (record.request == request && record.status.Completed? ==>
                        && effect.reply == Replayed(record.id, record.status.started)
                        && effect.accepted == [] && effect.file == store.file))
  {
  }

  /** The job of an older version under a key without a record: refused for another request,
      resolved if its unit is seen, and launched again exactly if the unit is known to be absent. */
  lemma ImportsExactly(request: nat, env: Environment, store: Store, id: Id)
    requires Ends(env) && env.readOk && env.legacyOk && store.file.visible.None? && store.legacy == Some(id)
    ensures var effect, first := Dispatch(request, env, store), env.attempts[0];
            var seen := id in store.units || id in store.results;
            var known := id in store.specs && store.specs[id].Some?;
            var mine := known && store.specs[id].value == request && env.inspectOk;
            && (!known ==> effect.reply == Uncertain)
            && (known && store.specs[id].value != request ==> effect.reply == Conflict)
            && (known && store.specs[id].value == request && !env.inspectOk ==> effect.reply == Uncertain)
            && (!mine ==> effect.accepted == [] && effect.file == store.file)
            && (mine && seen ==>
                  && effect.reply == (if env.imported == WRITTEN then Resolved(id, true) else Refused)
                  && effect.file ==
                     store.file.Write(JobRecord(request, id, true, Completed(true)), env.imported.outcome))
            && (mine && !seen && env.imported != WRITTEN ==> effect.reply == Refused)
            && (effect.accepted != [] <==>
                  && mine && !seen && env.imported == WRITTEN
                  && AnsweredUntilDeadline(env.evidence) && !first.canceled)
            && (mine && !seen && env.imported == WRITTEN && effect.accepted == [] ==>
                  && effect.reply == (if AnsweredUntilDeadline(env.evidence) then Refused else Uncertain)
                  && effect.file.visible == Some(JobRecord(request, id, true, InProgress)))
  {
    WindowsExactly(env);
    LoopExactly(env, false, false);
    hide Answers, Settles, AnsweredOnce, AnsweredUntilDeadline, LaunchLoop;
  }

  /** A key without a record and without a mapping: the job is launched exactly if it could be
      prepared, recorded and marked, and the call is not canceled. */
  lemma StartsExactly(request: nat, env: Environment, store: Store)
    requires Ends(env) && env.readOk && store.file.visible.None? && (env.legacyOk ==> store.legacy.None?)
    ensures var effect := Dispatch(request, env, store);
            && (effect.accepted != [] <==>
                  && env.legacyOk && env.prepareOk && env.recorded == WRITTEN && env.marked == WRITTEN
                  && !env.attempts[0].canceled)
            && (effect.accepted != [] ==> effect.id == store.next)
            && (effect.accepted == [] ==> effect.reply == Refused)
            && (!env.legacyOk || !env.prepareOk ==>
                  effect.file == store.file && SpecsAfter(request, env, store) == store.specs)
            && (env.legacyOk && env.prepareOk && env.recorded != WRITTEN ==>
                  && effect.file ==
                     store.file.Write(JobRecord(request, store.next, false, InProgress), env.recorded.outcome)
                  && SpecsAfter(request, env, store) == store.specs - {store.next})
            && (env.legacyOk && env.prepareOk && env.recorded == WRITTEN ==>
                  SpecsAfter(request, env, store) == store.specs[store.next := Some(request)])
  {
    LoopExactly(env, store.Visible(store.next), store.next in store.units);
    hide Answers, Settles, AnsweredOnce, AnsweredUntilDeadline, LaunchLoop;
  }

  /** What a dispatch that launches answers and records: a launch that returns cleanly, or whose
      unit is seen, is a started job; two launches that left nothing are a failed one; everything
      else stays in progress. */
  predicate LaunchAnswers(effect: Effect, request: nat, env: Environment, visible: bool, loaded: bool)
    requires |env.attempts| == 2 && effect.accepted != []
  {
    var first, second := env.attempts[0], env.attempts[1];
    var seen := visible || first.accepted;
    && effect.accepted[0] == (first.accepted && !loaded)
    && (|effect.accepted| == 2 <==> LeftNothing(first, seen) && !second.canceled)
    && (|effect.accepted| == 2 ==> effect.accepted[1] == second.accepted)
    && (Started(first, seen) ==> Records(effect, request, true, env.completed))
    && (!Started(first, seen) && !LeftNothing(first, seen) ==> StaysOpen(effect, request, Uncertain))
    && (LeftNothing(first, seen) && second.canceled ==> StaysOpen(effect, request, Refused))
    && (|effect.accepted| == 2 ==>
          if Started(second, second.accepted) then Records(effect, request, true, env.completed)
          else if LeftNothing(second, second.accepted) then Records(effect, request, false, env.completed)
          else StaysOpen(effect, request, Uncertain))
  }

  lemma CompletesExactly(request: nat, id: Id, env: Environment, file: Register<JobRecord>, visible: bool, loaded: bool)
    requires Ends(env) && (loaded ==> visible) && file.visible == Some(JobRecord(request, id, true, InProgress))
    ensures var loop := LaunchLoop(env.attempts, true, visible, loaded);
            loop.accepted != [] ==>
              LaunchAnswers(Complete(file.visible.value, env, file, loop), request, env, visible, loaded)
  {
    LoopExactly(env, visible, loaded);
    hide Started, LeftNothing, LaunchLoop;
  }

  /** Whatever led to it - a new job, an imported one, or one in progress. */
  lemma LaunchesAnswerExactly(request: nat, env: Environment, store: Store)
    requires Ends(env) && Dispatch(request, env, store).accepted != []
    ensures var effect := Dispatch(request, env, store);
            var loaded, finished := effect.id in store.units, effect.id in store.results;
            LaunchAnswers(effect, request, env, loaded || finished, loaded)
  {
    var id := Dispatch(request, env, store).id;
    forall file: Register<JobRecord>, visible, loaded
      | (loaded ==> visible) && file.visible == Some(JobRecord(request, id, true, InProgress))
      ensures var loop := LaunchLoop(env.attempts, true, visible, loaded);
              loop.accepted != [] ==>
                LaunchAnswers(Complete(file.visible.value, env, file, loop), request, env, visible, loaded)
    {
      CompletesExactly(request, id, env, file, visible, loaded);
    }
    hide LaunchAnswers, LaunchLoop, Complete;
  }

  /** The outcome is recorded for the job, and answered if that went well. */
  predicate Records(effect: Effect, request: nat, started: bool, write: Write) {
    var marked := JobRecord(request, effect.id, true, InProgress);
    var completed := JobRecord(request, effect.id, true, Completed(started));
    && effect.reply == (if write == WRITTEN then Resolved(effect.id, started) else Unpublished(effect.id))
    && effect.file.visible == Some(if write.outcome.NotPublished? then marked else completed)
    && (write.outcome.Published? ==> effect.file.possible == {Some(completed)})
  }

  /** The job stays marked and in progress. */
  predicate StaysOpen(effect: Effect, request: nat, reply: Reply) {
    effect.reply == reply && effect.file.visible == Some(JobRecord(request, effect.id, true, InProgress))
  }
}
