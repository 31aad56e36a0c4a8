/** The keyed dispatch as the program runs it: one call at a time, with its in-memory active
    set and its state files updated in place. Every call is also a stretch of a run of the
    protocol in `MutationProtocol`, so what is proved there about all runs holds of it. */
module KeyedDispatch {
  import opened Common
  import opened Register
  import opened MutationProtocol

  /** What the environment does during one dispatch. */
  datatype Environment = Environment(
    lockOk: bool, readOk: bool,
    recordOutcome: Outcome, recordClosed: bool,
    native: Native,
    completeOutcome: Outcome, completeClosed: bool,
    prune: set<Key>)
  {
    predicate Recorded() {
      recordOutcome.Published? && recordClosed
    }

    predicate Completed() {
      completeOutcome.Published? && completeClosed
    }
  }

  class KeyedMutationStore {
    var active: set<Key>
    var files: map<Key, Register<Record>>

    /** The native operations that ran and the prunes, in order. */
    var log: seq<Event>

    /** The protocol run this store has been through. */
    ghost var states: seq<State>
    ghost var steps: seq<Step>

    ghost predicate Valid()
      reads this
    {
      && Run(states, steps)
      && Now().active == active && Now().files == files && Now().log == log
    }

    ghost function Now(): State
      reads this
      requires |states| > 0
    {
      states[|states| - 1]
    }

    function File(key: Key): Register<Record>
      reads this
    {
      if key in files then files[key] else Missing()
    }

    constructor ()
      ensures Valid() && active == {} && files == map[] && log == []
    {
      active, files, log := {}, map[], [];
      states, steps := [INITIAL], [];
    }

    ghost method Take(step: Step)
      requires Run(states, steps) && Enabled(Now(), step)
      modifies this`states, this`steps
      ensures states == old(states) + [Apply(old(Now()), step)] && steps == old(steps) + [step]
      ensures Run(states, steps)
    {
      states, steps := states + [Apply(Now(), step)], steps + [step];
    }

    /** The caller `c` of the run is this call, at program point `pc`. */
    ghost predicate Running(c: nat, key: Key, request: Request, pc: Pc)
      reads this
    {
      Valid() && c in Now().callers && Now().callers[c] == Caller(key, request, pc)
    }

    /** However many calls the store has been through: since the record of a key was last pruned
        the native operation ran at most once under it. */
    lemma NeverTwice(key: Key)
      requires Valid()
      ensures |Executions(log, key)| <= 1
    {
      AtMostOnce(states, steps, |steps|, key);
    }

    /** A keyed mutation. The reply, the state file of the key and the native executions are
        determined case by case; a prune may only unlink completed records of other keys
        that nobody is working on; and the run of the protocol is only ever extended. */
    method DispatchKeyedMutation(key: Key, request: Request, env: Environment) returns (reply: Reply)
      requires Valid()
      modifies this
      ensures Valid() && old(states) <= states && old(steps) <= steps
      ensures active == old(active)
      ensures if key in old(active) then
                reply == Active && files == old(files) && log == old(log)
              else if !env.lockOk then
                reply == StateFailed && files == old(files) && log == old(log)
              else
                Dispatched(key, request, env, old(active) + {key}, old(files), old(log), files, log, reply)
    {
      ghost var c;
      var entered;
      entered, c := Activate(key, request);
      if !entered { return Active; }
      reply := DispatchActive(key, request, env, c);
      Deactivate(key, request, reply, c);
    }

    method Activate(key: Key, request: Request) returns (entered: bool, ghost c: nat)
      requires Valid()
      modifies this`active, this`states, this`steps
      ensures entered == (key !in old(active))
      ensures active == if entered then old(active) + {key} else old(active)
      ensures Running(c, key, request, if entered then Locking else Done(Active))
      ensures old(states) <= states && old(steps) <= steps
    {
      c := Now().arrivals;
      Take(Arrive(key, request));
      Take(Work(c, Choice(true, NotPublished, 0, {})));
      entered := key !in active;
      if entered { active := active + {key}; }
    }

    method Deactivate(key: Key, request: Request, reply: Reply, ghost c: nat)
      requires Running(c, key, request, Deactivating(reply))
      modifies this`active, this`states, this`steps
      ensures active == old(active) - {key} && Valid()
      ensures old(states) <= states && old(steps) <= steps
    {
      active := active - {key};
      Take(Work(c, Choice(true, NotPublished, 0, {})));
    }

    /** The part between activation and deactivation. */
    method DispatchActive(key: Key, request: Request, env: Environment, ghost c: nat) returns (reply: Reply)
      requires Running(c, key, request, Locking)
      modifies this`files, this`log, this`states, this`steps
      ensures Running(c, key, request, Deactivating(reply)) && old(states) <= states && old(steps) <= steps
      ensures !env.lockOk ==> reply == StateFailed && files == old(files) && log == old(log)
      ensures env.lockOk ==> Dispatched(key, request, env, old(active), old(files), old(log), files, log, reply)
    {
      if !env.lockOk {
        Take(Work(c, Choice(false, NotPublished, 0, {})));
        return StateFailed;
      }
      RunInv(states, steps, |steps|);
      Take(Work(c, Choice(true, NotPublished, 0, {})));
      reply := DispatchLocked(key, request, env, c);
      Take(Work(c, Choice(true, NotPublished, 0, {})));
    }

    /** The part under the digest lock. */
    method DispatchLocked(key: Key, request: Request, env: Environment, ghost c: nat) returns (reply: Reply)
      requires Running(c, key, request, Reading)
      modifies this`files, this`log, this`states, this`steps
      ensures Running(c, key, request, Unlocking(reply)) && old(states) <= states && old(steps) <= steps
      ensures Dispatched(key, request, env, old(active), old(files), old(log), files, log, reply)
    {
      hide Running, Executes;
      var found := Read(key, request, env.readOk, c);
      if !env.readOk { return StateCorrupt; }
      if found.Some? { return Decide(found.value, request); }
      reply := ExecuteNew(key, request, env, c);
    }

    /** The part for a key without a record: write ahead, execute, record the result. */
    method ExecuteNew(key: Key, request: Request, env: Environment, ghost c: nat) returns (reply: Reply)
      requires Running(c, key, request, Recording)
      modifies this`files, this`log, this`states, this`steps
      ensures Running(c, key, request, Unlocking(reply)) && old(states) <= states && old(steps) <= steps
      ensures Executes(key, request, env, active, old(files), old(log), files, log, reply)
    {
      hide Running, Sweeps;
      var recorded := WriteInProgress(key, request, env.recordOutcome, env.recordClosed, c);
      if !recorded { return StateFailed; }

      DispatchNative(key, request, env.native, c);

      var completed := WriteCompleted(key, request, env.native, env.completeOutcome, env.completeClosed, c);
      ghost var ended := files[key];
      assert files == old(files)[key := ended];
      if !completed { return Unpublished(env.native); }

      Prune(key, request, env, c);
      return Executed(env.native);
    }

    method Read(key: Key, request: Request, ok: bool, ghost c: nat) returns (found: Option<Record>)
      requires Running(c, key, request, Reading)
      modifies this`states, this`steps
      ensures found == File(key).visible
      ensures Running(c, key, request,
                      if !ok then Unlocking(StateCorrupt)
                      else if found.Some? then Unlocking(Decide(found.value, request)) else Recording)
      ensures old(states) <= states && old(steps) <= steps
    {
      found := File(key).visible;
      Take(Work(c, Choice(ok, NotPublished, 0, {})));
    }

    method WriteInProgress(key: Key, request: Request, outcome: Outcome, closed: bool, ghost c: nat) returns (ok: bool)
      requires Running(c, key, request, Recording)
      modifies this`files, this`states, this`steps
      ensures ok == (outcome.Published? && closed)
      ensures files == old(files)[key := FileIn(old(files), key).Write(Record(request, InProgress), outcome)]
      ensures Running(c, key, request, if ok then Executing else Unlocking(StateFailed))
      ensures old(states) <= states && old(steps) <= steps
    {
      files := files[key := File(key).Write(Record(request, InProgress), outcome)];
      Take(Work(c, Choice(closed, outcome, 0, {})));
      ok := outcome.Published? && closed;
    }

    method DispatchNative(key: Key, request: Request, native: Native, ghost c: nat)
      requires Running(c, key, request, Executing)
      modifies this`log, this`states, this`steps
      ensures log == old(log) + [Ran(key, request, native)]
      ensures Running(c, key, request, Completing(native))
      ensures old(states) <= states && old(steps) <= steps
    {
      log := log + [Ran(key, request, native)];
      Take(Work(c, Choice(true, NotPublished, native, {})));
    }

    method WriteCompleted(key: Key, request: Request, native: Native, outcome: Outcome, closed: bool, ghost c: nat)
        returns (ok: bool)
      requires Running(c, key, request, Completing(native))
      modifies this`files, this`states, this`steps
      ensures ok == (outcome.Published? && closed)
      ensures files == old(files)[key := FileIn(old(files), key).Write(Record(request, Completed(native)), outcome)]
      ensures Running(c, key, request, if ok then Pruning(native) else Unlocking(Unpublished(native)))
      ensures old(states) <= states && old(steps) <= steps
    {
      files := files[key := File(key).Write(Record(request, Completed(native)), outcome)];
      Take(Work(c, Choice(closed, outcome, 0, {})));
      ok := outcome.Published? && closed;
    }

    method Prune(key: Key, request: Request, env: Environment, ghost c: nat)
      requires Running(c, key, request, Pruning(env.native))
      modifies this`files, this`log, this`states, this`steps
      ensures Running(c, key, request, Unlocking(Executed(env.native)))
      ensures old(states) <= states && old(steps) <= steps
      ensures Sweeps(env, active, old(files), old(log), files, log)
    {
      var removed := set k | k in env.prune && k in files && k !in active
                        && files[k].visible.Some? && files[k].visible.value.progress.Completed?;
      files := map k | k in files :: if k in removed then files[k].Unlink() else files[k];
      log := log + [Pruned(removed)];
      assert removed == set k | k in env.prune && Now().Prunable(k);
      Take(Work(c, Choice(true, NotPublished, 0, env.prune)));
    }
  }

  function FileIn(files: map<Key, Register<Record>>, key: Key): Register<Record> {
    if key in files then files[key] else Missing()
  }

  /** A prune unlinks some completed records of inactive keys and touches nothing else. */
  ghost predicate Sweeps(env: Environment, active: set<Key>, before: map<Key, Register<Record>>, logBefore: seq<Event>,
                         after: map<Key, Register<Record>>, logAfter: seq<Event>)
  {
    exists removed :: logAfter == logBefore + [Pruned(removed)] && removed <= env.prune
      && (forall k :: k in removed ==>
            k !in active && FileIn(before, k).visible.Some? && FileIn(before, k).visible.value.progress.Completed?)
      && (forall k :: FileIn(after, k) == if k in removed then FileIn(before, k).Unlink() else FileIn(before, k))
  }

  /** The effect of a dispatch under the lock: which case applies, what it replies and what
      it leaves in the state files and in the log. */
  ghost predicate Dispatched(key: Key, request: Request, env: Environment, active: set<Key>,
                             before: map<Key, Register<Record>>, logBefore: seq<Event>,
                             after: map<Key, Register<Record>>, logAfter: seq<Event>, reply: Reply)
  {
    if !env.readOk then
      reply == StateCorrupt && after == before && logAfter == logBefore
    else if FileIn(before, key).visible.Some? then
      reply == Decide(FileIn(before, key).visible.value, request) && after == before && logAfter == logBefore
    else
      Executes(key, request, env, active, before, logBefore, after, logAfter, reply)
  }

  /** The same for a key without a record. */
  ghost predicate Executes(key: Key, request: Request, env: Environment, active: set<Key>,
                           before: map<Key, Register<Record>>, logBefore: seq<Event>,
                           after: map<Key, Register<Record>>, logAfter: seq<Event>, reply: Reply)
  {
    var begun := FileIn(before, key).Write(Record(request, InProgress), env.recordOutcome);
    var ended := begun.Write(Record(request, Completed(env.native)), env.completeOutcome);
    var ran := Ran(key, request, env.native);
    if !env.Recorded() then
      reply == StateFailed && after == before[key := begun] && logAfter == logBefore
    else if !env.Completed() then
      reply == Unpublished(env.native) && after == before[key := ended] && logAfter == logBefore + [ran]
    else
      reply == Executed(env.native) && Sweeps(env, active, before[key := ended], logBefore + [ran], after, logAfter)
  }

  /** A retry after an execution, however the first reply was lost, never runs anything: it
      returns the first result to the same request and refuses any other. */
  lemma RetryReplays(key: Key, first: Request, retry: Request, env: Environment, envRetry: Environment,
                     active: set<Key>, files0: map<Key, Register<Record>>, log0: seq<Event>,
                     files1: map<Key, Register<Record>>, log1: seq<Event>,
                     files2: map<Key, Register<Record>>, log2: seq<Event>, reply: Reply)
    requires key in active && envRetry.readOk
    requires Dispatched(key, first, env, active, files0, log0, files1, log1, Executed(env.native))
    requires Dispatched(key, retry, envRetry, active, files1, log1, files2, log2, reply)
    ensures reply == if retry == first then Replayed(env.native) else Conflict
    ensures files2 == files1 && log2 == log1
  {
    if FileIn(files0, key).visible.Some? {
      assert false;
    }
  }

  /** Every answer of a dispatch under the lock, by what the key's record says and by what
      happens: a record of another request is a conflict, one in progress is uncertain, and a
      completed one is replayed; the state is corrupt only if it cannot be read. */
  lemma AnswersExactly(key: Key, request: Request, env: Environment, active: set<Key>,
                       before: map<Key, Register<Record>>, logBefore: seq<Event>,
                       after: map<Key, Register<Record>>, logAfter: seq<Event>, reply: Reply)
    requires Dispatched(key, request, env, active, before, logBefore, after, logAfter, reply)
    ensures var found := if key in before then before[key].visible else None;
            var unknown := env.readOk && found.None?;
            var recorded := env.recordOutcome == Published && env.recordClosed;
            var completed := env.completeOutcome == Published && env.completeClosed;
            && (reply == StateCorrupt <==> !env.readOk)
            && (reply == Conflict <==> env.readOk && found.Some? && found.value.request != request)
            && (reply == Uncertain <==> env.readOk && found == Some(Record(request, InProgress)))
            && (forall result ::
                  reply == Replayed(result) <==> env.readOk && found == Some(Record(request, Completed(result))))
            && (reply == StateFailed <==> unknown && !recorded)
            && (reply == Unpublished(env.native) <==> unknown && recorded && !completed)
            && (reply == Executed(env.native) <==> unknown && recorded && completed)
  {
  }

  /** What a dispatch under the lock runs and writes: the native operation runs exactly for a key
      without a record whose in-progress record was written, once, and nothing else is written. */
  lemma WritesExactly(key: Key, request: Request, env: Environment, active: set<Key>,
                      before: map<Key, Register<Record>>, logBefore: seq<Event>,
                      after: map<Key, Register<Record>>, logAfter: seq<Event>, reply: Reply)
    requires key in active && Dispatched(key, request, env, active, before, logBefore, after, logAfter, reply)
    ensures var found := if key in before then before[key].visible else None;
            var unknown := env.readOk && found.None?;
            var recorded := env.recordOutcome == Published && env.recordClosed;
            && (!unknown ==> after == before && logAfter == logBefore)
            && (unknown && !recorded ==> logAfter == logBefore)
            && (unknown && env.recordOutcome == NotPublished ==> after == before[key := FileIn(before, key)])
            && (unknown && recorded ==> logBefore + [Ran(key, request, env.native)] <= logAfter)
            && (unknown && recorded ==> |logAfter| <= |logBefore| + 2)
            && (unknown && recorded && env.completeOutcome == Published ==>
                  var record := Some(Record(request, Completed(env.native)));
                  key in after && after[key] == Register(record, {record}))
            && (unknown && recorded && env.completeOutcome == NotPublished ==>
                  var record := Some(Record(request, InProgress));
                  key in after && after[key] == Register(record, {record}))
  {
    if FileIn(after, key).visible.Some? { assert key in after; }
  }
}
