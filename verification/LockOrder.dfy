/** The locks of concurrent keyed dispatches and of `job.forget`, keyed or not.

    A dispatch activates its key without waiting and then takes the digest lock of that key.
    A keyed `job.start` may take the legacy lock under it. A forget, which may itself run
    under a digest lock, takes and releases the legacy lock and then visits the other digest
    locks one at a time, skipping the keys that are active when it looks. */
module LockOrder {
  import opened Common

  type Key = nat
  type Process = nat

  /** `key` is the key of a keyed call; an unkeyed forget has none. `entries` are the digests
      of the directory listing that a forget still has to visit. */
  datatype Kind = Plain | JobStart | Forget

  datatype Pc =
    | Activate
    | LockOwn
    | Native
    | LockLegacy
    | HoldLegacy
    | Visit(entries: seq<Key>)
    | LockEntry(entries: seq<Key>)
    | HoldEntry(entries: seq<Key>)
    | UnlockOwn
    | Deactivate
    | Done

  datatype Call = Call(kind: Kind, key: Option<Key>, pc: Pc)

  /** `stamps` gives each active key the moment it was activated; `looked` is the moment a
      waiting forget saw its entry inactive. */
  datatype State = State(
    calls: map<Process, Call>,
    stamps: map<Key, nat>,
    digests: map<Key, Process>,
    legacy: Option<Process>,
    looked: map<Process, nat>,
    clock: nat)
  {
    function At(p: Process, pc: Pc): State
      requires p in calls
    {
      this.(calls := calls[p := calls[p].(pc := pc)])
    }
  }

  datatype Step =
    | Arrive(process: Process, kind: Kind, key: Option<Key>)
    | Work(process: Process, listing: seq<Key>, skip: bool)

  predicate Waits(pc: Pc) {
    pc.LockOwn? || pc.LockLegacy? || pc.LockEntry?
  }

  /** The lock a waiting call needs is held by somebody. */
  predicate Blocked(s: State, p: Process)
    requires p in s.calls
  {
    var call := s.calls[p];
    match call.pc
    case LockOwn => call.key.Some? && call.key.value in s.digests
    case LockLegacy => s.legacy.Some?
    case LockEntry(entries) => entries != [] && entries[0] in s.digests
    case _ => false
  }

  predicate Enabled(s: State, step: Step) {
    match step
    case Arrive(p, kind, key) => p !in s.calls && (key.None? ==> kind.Forget?)
    case Work(p, _, _) => p in s.calls && !s.calls[p].pc.Done? && !Blocked(s, p)
  }

  function Apply(s: State, step: Step): State
    requires Enabled(s, step)
  {
    match step
    case Arrive(p, kind, key) =>
      s.(calls := s.calls[p := Call(kind, key, if key.Some? then Activate else Native)])
    case Work(p, listing, skip) => Advance(s, p, listing, skip)
  }

  /** One step of one call. `listing` is what reading the directory returns; `skip` lets a
      keyed start return before it looks at legacy state, and a call fail early. */
  function Advance(s: State, p: Process, listing: seq<Key>, skip: bool): State
    requires p in s.calls
  {
    var Call(kind, key, pc) := s.calls[p];
    match pc
    case Activate =>
      if key.None? || key.value in s.stamps then s.At(p, Done)
      else s.At(p, LockOwn).(stamps := s.stamps[key.value := s.clock], clock := s.clock + 1)
    case LockOwn => if key.None? then s.At(p, Done) else s.At(p, Native).(digests := s.digests[key.value := p])
    case Native =>
      if kind.Plain? || skip then s.At(p, if key.Some? then UnlockOwn else Done)
      else s.At(p, LockLegacy)
    case LockLegacy => s.At(p, HoldLegacy).(legacy := Some(p))
    case HoldLegacy =>
      s.At(p, if kind.Forget? && !skip then Visit(listing) else if key.Some? then UnlockOwn else Done).(legacy := None)
    case Visit(entries) =>
      if entries == [] || skip then s.At(p, if key.Some? then UnlockOwn else Done)
      else if entries[0] in s.stamps then s.At(p, Visit(entries[1..]))
      else s.At(p, LockEntry(entries)).(looked := s.looked[p := s.clock], clock := s.clock + 1)
    case LockEntry(entries) =>
      if entries == [] then s.At(p, Done) else s.At(p, HoldEntry(entries)).(digests := s.digests[entries[0] := p])
    case HoldEntry(entries) =>
      if entries == [] then s.At(p, Done) else s.At(p, Visit(entries[1..])).(digests := s.digests - {entries[0]})
    case UnlockOwn => s.At(p, Deactivate).(digests := if key.Some? then s.digests - {key.value} else s.digests)
    case Deactivate => s.At(p, Done).(stamps := if key.Some? then s.stamps - {key.value} else s.stamps)
    case Done => s
  }

  // ----- invariants -----

  /** The key of a call is in the active set. */
  predicate Entered(call: Call) {
    call.key.Some? && !call.pc.Activate? && !call.pc.Done?
  }

  /** The call holds the digest lock of its own key. */
  predicate HoldsOwn(call: Call) {
    Entered(call) && !call.pc.LockOwn? && !call.pc.Deactivate?
  }

  predicate HoldsDigest(call: Call, key: Key) {
    || (HoldsOwn(call) && call.key == Some(key))
    || (call.pc.HoldEntry? && call.pc.entries != [] && call.pc.entries[0] == key)
  }

  ghost predicate WellFormed(s: State, p: Process)
    requires p in s.calls
  {
    var call := s.calls[p];
    && (call.key.None? ==>
          call.kind.Forget? && !call.pc.Activate? && !call.pc.LockOwn? && !call.pc.UnlockOwn? && !call.pc.Deactivate?)
    && (call.pc.LockEntry? || call.pc.HoldEntry? ==> call.pc.entries != [])
    && (call.pc.HoldEntry? ==> call.key != Some(call.pc.entries[0]))
  }

  predicate BothEntered(a: Call, b: Call) {
    Entered(a) && Entered(b) && a.key == b.key
  }

  /** Active keys belong to distinct calls, and every stamp is in the past. */
  ghost predicate ActiveOnce(s: State) {
    && (forall p :: p in s.calls ==> WellFormed(s, p))
    && (forall p :: p in s.calls && Entered(s.calls[p]) ==> s.calls[p].key.value in s.stamps)
    && (forall p, q :: p in s.calls && q in s.calls && BothEntered(s.calls[p], s.calls[q]) ==> p == q)
    && (forall k :: k in s.stamps ==> s.stamps[k] < s.clock)
  }

  /** A digest lock has exactly one holder. */
  ghost predicate DigestsHeld(s: State) {
    && (forall k :: k in s.digests ==> s.digests[k] in s.calls && HoldsDigest(s.calls[s.digests[k]], k))
    && (forall p, k :: p in s.calls && HoldsDigest(s.calls[p], k) ==> k in s.digests && s.digests[k] == p)
  }

  /** The legacy lock has exactly one holder, and that call is not waiting. */
  ghost predicate LegacyHeld(s: State) {
    && (s.legacy.Some? ==> s.legacy.value in s.calls && s.calls[s.legacy.value].pc.HoldLegacy?)
    && (forall p :: p in s.calls && s.calls[p].pc.HoldLegacy? ==> s.legacy == Some(p))
  }

  /** A waiting forget looked after its own key was activated, and if its entry is active by
      now, it was activated after the look. */
  ghost predicate Ordered(s: State, p: Process) {
    p in s.calls && s.calls[p].pc.LockEntry? ==>
      && p in s.looked && s.looked[p] < s.clock
      && (s.calls[p].key.Some? && s.calls[p].key.value in s.stamps ==> s.stamps[s.calls[p].key.value] < s.looked[p])
      && (s.calls[p].pc.entries != [] && s.calls[p].pc.entries[0] in s.stamps ==>
            s.looked[p] < s.stamps[s.calls[p].pc.entries[0]])
  }

  ghost predicate Inv(s: State) {
    ActiveOnce(s) && DigestsHeld(s) && LegacyHeld(s) && forall p :: Ordered(s, p)
  }

  // ----- the few ways in which a step can change who holds what -----

  datatype Effect =
    | Nothing
    | Enter
    | Leave
    | LookAt
    | TakeDigest(key: Key)
    | DropDigest(key: Key)
    | TakeLegacy
    | DropLegacy

  /** `call` becomes `next` with this effect. What a waiting or holding program point is does
      not matter here, only what it holds. */
  ghost predicate Changes(call: Call, next: Call, effect: Effect) {
    && next.key == call.key && next.kind == call.kind
    && (Entered(next) <==> (Entered(call) || effect.Enter?) && !effect.Leave?)
    && (effect.Enter? ==> call.key.Some? && !Entered(call))
    && (effect.Leave? ==> Entered(call))
    && (forall k :: HoldsDigest(next, k) <==>
          (HoldsDigest(call, k) || effect == TakeDigest(k)) && effect != DropDigest(k))
    && (effect.DropDigest? ==> HoldsDigest(call, effect.key))
    && (next.pc.HoldLegacy? <==> effect.TakeLegacy?)
    && (call.pc.HoldLegacy? <==> effect.DropLegacy?)
    && (next.pc.LockEntry? <==> effect.LookAt?)
  }

  ghost predicate Performs(s: State, t: State, p: Process, effect: Effect) {
    p in s.calls && p in t.calls &&
    var key := s.calls[p].key;
    && t.calls == s.calls[p := t.calls[p]] && WellFormed(t, p)
    && Changes(s.calls[p], t.calls[p], effect)
    && (effect.Enter? ==> key.value !in s.stamps)
    && t.stamps == (if effect.Enter? then s.stamps[key.value := s.clock]
        else if effect.Leave? then s.stamps - {key.value} else s.stamps)
    && t.clock == (if effect.Enter? || effect.LookAt? then s.clock + 1 else s.clock)
    && t.looked == (if effect.LookAt? then s.looked[p := s.clock] else s.looked)
    && (effect.LookAt? ==> t.calls[p].pc.entries[0] !in s.stamps)
    && (effect.TakeDigest? ==> effect.key !in s.digests)
    && t.digests == (if effect.TakeDigest? then s.digests[effect.key := p]
        else if effect.DropDigest? then s.digests - {effect.key} else s.digests)
    && (effect.TakeLegacy? ==> s.legacy.None?)
    && t.legacy == (if effect.TakeLegacy? then Some(p) else if effect.DropLegacy? then None else s.legacy)
  }

  ghost function EffectOf(s: State, step: Step): Effect
    requires Enabled(s, step) && step.Work? && WellFormed(s, step.process)
  {
    var call := s.calls[step.process];
    match call.pc
    case Activate => if call.key.value in s.stamps then Nothing else Enter
    case LockOwn => TakeDigest(call.key.value)
    case LockLegacy => TakeLegacy
    case HoldLegacy => DropLegacy
    case Visit(entries) => if entries == [] || step.skip || entries[0] in s.stamps then Nothing else LookAt
    case LockEntry(entries) => TakeDigest(entries[0])
    case HoldEntry(entries) => DropDigest(entries[0])
    case UnlockOwn => DropDigest(call.key.value)
    case Deactivate => Leave
    case _ => Nothing
  }

  lemma EntrancePerforms(s: State, step: Step)
    requires Enabled(s, step) && step.Work? && WellFormed(s, step.process)
    requires HoldsOwn(s.calls[step.process]) ==> s.calls[step.process].key.value in s.digests
    requires s.calls[step.process].pc.Activate? || s.calls[step.process].pc.LockOwn?
    ensures Performs(s, Apply(s, step), step.process, EffectOf(s, step))
  {
  }

  lemma ExitPerforms(s: State, step: Step)
    requires Enabled(s, step) && step.Work? && WellFormed(s, step.process)
    requires HoldsOwn(s.calls[step.process]) ==> s.calls[step.process].key.value in s.digests
    requires s.calls[step.process].pc.UnlockOwn? || s.calls[step.process].pc.Deactivate?
    ensures Performs(s, Apply(s, step), step.process, EffectOf(s, step))
  {
  }

  lemma LegacyPerforms(s: State, step: Step)
    requires Enabled(s, step) && step.Work? && WellFormed(s, step.process)
    requires HoldsOwn(s.calls[step.process]) ==> s.calls[step.process].key.value in s.digests
    requires s.calls[step.process].pc.Native? || s.calls[step.process].pc.LockLegacy?
              || s.calls[step.process].pc.HoldLegacy?
    ensures Performs(s, Apply(s, step), step.process, EffectOf(s, step))
  {
  }

  lemma LookPerforms(s: State, step: Step)
    requires Enabled(s, step) && step.Work? && WellFormed(s, step.process)
    requires HoldsOwn(s.calls[step.process]) ==> s.calls[step.process].key.value in s.digests
    requires s.calls[step.process].pc.Visit?
    ensures Performs(s, Apply(s, step), step.process, EffectOf(s, step))
  {
  }

  lemma EntryPerforms(s: State, step: Step)
    requires Enabled(s, step) && step.Work? && WellFormed(s, step.process)
    requires HoldsOwn(s.calls[step.process]) ==> s.calls[step.process].key.value in s.digests
    requires s.calls[step.process].pc.LockEntry? || s.calls[step.process].pc.HoldEntry?
    ensures Performs(s, Apply(s, step), step.process, EffectOf(s, step))
  {
  }

  lemma StepPerforms(s: State, step: Step)
    requires Inv(s) && Enabled(s, step) && step.Work?
    ensures WellFormed(s, step.process) && Performs(s, Apply(s, step), step.process, EffectOf(s, step))
  {
    hide Advance, Performs, EffectOf;
    match s.calls[step.process].pc
    case Activate => EntrancePerforms(s, step);
    case LockOwn => EntrancePerforms(s, step);
    case UnlockOwn => ExitPerforms(s, step);
    case Deactivate => ExitPerforms(s, step);
    case Visit(_) => LookPerforms(s, step);
    case LockEntry(_) => EntryPerforms(s, step);
    case HoldEntry(_) => EntryPerforms(s, step);
    case Done =>
    case _ => LegacyPerforms(s, step);
  }

  lemma ActiveOncePerforms(s: State, t: State, p: Process, effect: Effect)
    requires Inv(s) && Performs(s, t, p, effect)
    ensures ActiveOnce(t)
  {
  }

  lemma HoldingPerforms(s: State, t: State, p: Process, effect: Effect, q: Process, k: Key)
    requires DigestsHeld(s) && Performs(s, t, p, effect)
    requires q in t.calls && HoldsDigest(t.calls[q], k)
    ensures k in t.digests && t.digests[k] == q
  {
    if q != p {
      assert t.calls[q] == s.calls[q] && HoldsDigest(s.calls[q], k);
      assert k in s.digests && s.digests[k] == q;
      assert effect != DropDigest(k);
    } else if !(effect.TakeDigest? && effect.key == k) {
      assert HoldsDigest(s.calls[p], k);
    }
  }

  lemma HeldPerforms(s: State, t: State, p: Process, effect: Effect, k: Key)
    requires DigestsHeld(s) && Performs(s, t, p, effect)
    requires k in t.digests
    ensures t.digests[k] in t.calls && HoldsDigest(t.calls[t.digests[k]], k)
  {
  }

  lemma DigestsHeldPerforms(s: State, t: State, p: Process, effect: Effect)
    requires DigestsHeld(s) && Performs(s, t, p, effect)
    ensures DigestsHeld(t)
  {
    forall k | k in t.digests ensures t.digests[k] in t.calls && HoldsDigest(t.calls[t.digests[k]], k) {
      HeldPerforms(s, t, p, effect, k);
    }
    forall q, k | q in t.calls && HoldsDigest(t.calls[q], k) ensures k in t.digests && t.digests[k] == q {
      HoldingPerforms(s, t, p, effect, q, k);
    }
  }

  lemma LegacyHeldPerforms(s: State, t: State, p: Process, effect: Effect)
    requires Inv(s) && Performs(s, t, p, effect)
    ensures LegacyHeld(t)
  {
  }

  lemma OrderedPerforms(s: State, t: State, p: Process, effect: Effect, q: Process)
    requires Inv(s) && Performs(s, t, p, effect)
    ensures Ordered(t, q)
  {
    assert Ordered(s, q);
  }

  lemma InvPerforms(s: State, t: State, p: Process, effect: Effect)
    requires Inv(s) && Performs(s, t, p, effect)
    ensures Inv(t)
  {
    ActiveOncePerforms(s, t, p, effect);
    DigestsHeldPerforms(s, t, p, effect);
    LegacyHeldPerforms(s, t, p, effect);
    forall q ensures Ordered(t, q) { OrderedPerforms(s, t, p, effect, q); }
  }

  lemma DigestsHeldArrive(s: State, p: Process, call: Call)
    requires DigestsHeld(s) && p !in s.calls && (call.key.None? ==> call.kind.Forget?)
    requires call.pc == if call.key.Some? then Activate else Native
    ensures DigestsHeld(s.(calls := s.calls[p := call]))
  {
    var t := s.(calls := s.calls[p := call]);
    assert forall k :: !HoldsDigest(call, k);
    forall q, k | q in t.calls && HoldsDigest(t.calls[q], k) ensures k in t.digests && t.digests[k] == q {
      assert q != p && HoldsDigest(s.calls[q], k);
    }
  }

  lemma InvArrive(s: State, p: Process, call: Call)
    requires Inv(s) && p !in s.calls && (call.key.None? ==> call.kind.Forget?)
    requires call.pc == if call.key.Some? then Activate else Native
    ensures Inv(s.(calls := s.calls[p := call]))
  {
    var t := s.(calls := s.calls[p := call]);
    ActiveOnceArrive(s, p, call);
    DigestsHeldArrive(s, p, call);
    hide ActiveOnce, DigestsHeld;
    forall q ensures Ordered(t, q) { assert Ordered(s, q); }
  }

  lemma ActiveOnceArrive(s: State, p: Process, call: Call)
    requires ActiveOnce(s) && p !in s.calls && (call.key.None? ==> call.kind.Forget?)
    requires call.pc == if call.key.Some? then Activate else Native
    ensures ActiveOnce(s.(calls := s.calls[p := call]))
  {
    var t := s.(calls := s.calls[p := call]);
    assert forall q :: q in s.calls ==> (WellFormed(t, q) <==> WellFormed(s, q));
    assert !Entered(call);
  }

  lemma InvStep(s: State, step: Step)
    requires Inv(s) && Enabled(s, step)
    ensures Inv(Apply(s, step))
  {
    match step
    case Arrive(p, kind, key) => InvArrive(s, p, Call(kind, key, if key.Some? then Activate else Native));
    case Work(p, _, _) =>
      StepPerforms(s, step);
      InvPerforms(s, Apply(s, step), p, EffectOf(s, step));
  }

  // ----- no cyclic wait -----

  const INITIAL := State(map[], map[], map[], None, map[], 0)

  ghost predicate Run(states: seq<State>, steps: seq<Step>) {
    && |states| == |steps| + 1 && states[0] == INITIAL
    && (forall i :: 0 <= i < |steps| ==> Enabled(states[i], steps[i]) && states[i + 1] == Apply(states[i], steps[i]))
  }

  lemma {:induction false} RunInv(states: seq<State>, steps: seq<Step>, i: nat)
    requires Run(states, steps) && i < |states|
    ensures Inv(states[i])
  {
    if i > 0 {
      RunInv(states, steps, i - 1);
      InvStep(states[i - 1], steps[i - 1]);
    }
  }

  /** `p` waits for a lock that `q` holds. */
  ghost predicate WaitsFor(s: State, p: Process, q: Process) {
    && p in s.calls && q in s.calls
    && match s.calls[p].pc
       case LockOwn => s.calls[p].key.Some? && HoldsDigest(s.calls[q], s.calls[p].key.value)
       case LockLegacy => s.calls[q].pc.HoldLegacy?
       case LockEntry(entries) => entries != [] && HoldsDigest(s.calls[q], entries[0])
       case _ => false
  }

  /** How late the key of a call was activated; an unkeyed call comes before all keys. */
  ghost function Rank(s: State, p: Process): int
    requires p in s.calls
  {
    if Entered(s.calls[p]) && s.calls[p].key.value in s.stamps then s.stamps[s.calls[p].key.value] else -1
  }

  /** A call that is waited for either waits for nobody, or it was activated after the waiter. */
  lemma WaitsUpwards(s: State, p: Process, q: Process)
    requires Inv(s) && WaitsFor(s, p, q)
    ensures p != q && (!Waits(s.calls[q].pc) || Rank(s, p) < Rank(s, q))
  {
    assert WellFormed(s, p) && WellFormed(s, q) && Ordered(s, p);
    match s.calls[p].pc
    case LockOwn => assert !HoldsOwn(s.calls[p]);
    case LockEntry(entries) => assert HoldsDigest(s.calls[q], entries[0]);
    case _ =>
  }

  /** Following the holders from any unfinished call ends at one that can go on. */
  lemma {:induction false} Unblocked(s: State, p: Process) returns (q: Process)
    requires Inv(s) && p in s.calls && !s.calls[p].pc.Done?
    ensures q in s.calls && !s.calls[q].pc.Done? && !Blocked(s, q)
    decreases s.clock - Rank(s, p)
  {
    if !Blocked(s, p) { return p; }
    var pc := s.calls[p].pc;
    var holder := if pc.LockOwn? then s.digests[s.calls[p].key.value]
        else if pc.LockEntry? then s.digests[pc.entries[0]] else s.legacy.value;
    WaitsUpwards(s, p, holder);
    if Waits(s.calls[holder].pc) {
      q := Unblocked(s, holder);
    } else {
      q := holder;
    }
  }

  /** No deadlock: as long as some call is unfinished, some call can take a step. */
  lemma NoDeadlock(states: seq<State>, steps: seq<Step>, i: nat, p: Process) returns (step: Step)
    requires Run(states, steps) && i < |states|
    requires p in states[i].calls && !states[i].calls[p].pc.Done?
    ensures step.Work? && Enabled(states[i], step)
  {
    RunInv(states, steps, i);
    var q := Unblocked(states[i], p);
    step := Work(q, [], false);
  }

  ghost predicate Chain(s: State, chain: seq<Process>) {
    |chain| >= 2 && (forall p :: p in chain ==> p in s.calls) && forall i :: 0 <= i < |chain| - 1 ==>
        WaitsFor(s, chain[i], chain[i + 1])
  }

  lemma {:induction false} ChainRises(s: State, chain: seq<Process>)
    requires Inv(s) && Chain(s, chain)
    ensures !Waits(s.calls[chain[|chain| - 1]].pc) || Rank(s, chain[0]) < Rank(s, chain[|chain| - 1])
  {
    var n := |chain| - 1;
    WaitsUpwards(s, chain[n - 1], chain[n]);
    if n > 1 {
      ChainRises(s, chain[..n]);
      assert Waits(s.calls[chain[n - 1]].pc);
    }
  }

  /** No cyclic wait, of any length, over the digest locks and the legacy lock. */
  lemma NoCyclicWait(states: seq<State>, steps: seq<Step>, i: nat, chain: seq<Process>)
    requires Run(states, steps) && i < |states| && Chain(states[i], chain)
    ensures chain[0] != chain[|chain| - 1]
  {
    RunInv(states, steps, i);
    ChainRises(states[i], chain);
    assert WaitsFor(states[i], chain[0], chain[1]);
  }

  /** The legacy lock is innermost: whoever holds it waits for nothing. */
  lemma LegacyIsInnermost(states: seq<State>, steps: seq<Step>, i: nat, p: Process)
    requires Run(states, steps) && i < |states|
    requires states[i].legacy == Some(p)
    ensures p in states[i].calls && states[i].calls[p].pc.HoldLegacy? && forall q :: !WaitsFor(states[i], p, q)
  {
    RunInv(states, steps, i);
  }

  /** Under which locks a call works: everything between its activation and its end under its own
      digest lock, the legacy mapping under the legacy lock, an entry under that entry's lock. */
  lemma LocksAreHeld(states: seq<State>, steps: seq<Step>, i: nat, p: Process)
    requires Run(states, steps) && i < |states| && p in states[i].calls
    ensures var call, s := states[i].calls[p], states[i];
            && (call.key.Some? && call.pc !in {Activate, LockOwn, Deactivate, Done} ==>
                  call.key.value in s.stamps && call.key.value in s.digests && s.digests[call.key.value] == p)
            && (call.pc.HoldLegacy? ==> s.legacy == Some(p))
            && (call.pc.HoldEntry? ==>
                  call.pc.entries != [] && call.pc.entries[0] in s.digests && s.digests[call.pc.entries[0]] == p)
  {
    RunInv(states, steps, i);
    var call := states[i].calls[p];
    assert WellFormed(states[i], p);
    if call.key.Some? && HoldsOwn(call) { assert HoldsDigest(call, call.key.value); }
    if call.pc.HoldEntry? { assert HoldsDigest(call, call.pc.entries[0]); }
  }

  // ----- a forget visits what is listed -----

  /** The digests that a forget has not dealt with yet. */
  function Left(pc: Pc): seq<Key> {
    match pc
    case Visit(entries) => entries
    case LockEntry(entries) => entries
    case HoldEntry(entries) => entries
    case _ => []
  }

  predicate Visiting(pc: Pc) {
    pc.Visit? || pc.LockEntry? || pc.HoldEntry?
  }

  /** At this moment the forget holds the lock of this digest, or it looks and finds it active. */
  predicate DealsWith(s: State, p: Process, digest: Key) {
    && p in s.calls && Visiting(s.calls[p].pc) && Left(s.calls[p].pc) != [] && Left(s.calls[p].pc)[0] == digest
    && ((s.calls[p].pc.HoldEntry? && digest in s.digests && s.digests[digest] == p)
        || (s.calls[p].pc.Visit? && digest in s.stamps))
  }

  ghost predicate Dealt(states: seq<State>, i: nat, j: nat, p: Process, digest: Key)
    requires i <= j <= |states|
  {
    exists k :: i <= k < j && DealsWith(states[k], p, digest)
  }

  lemma VisitStep(s: State, step: Step, p: Process)
    requires Inv(s) && Enabled(s, step) && p in s.calls && Visiting(s.calls[p].pc)
    requires step.Work? && step.process == p ==> !step.skip && s.calls[p].pc != Visit([])
    ensures var t := Apply(s, step);
            && p in t.calls && Visiting(t.calls[p].pc)
            && (Left(t.calls[p].pc) == Left(s.calls[p].pc)
                || (Left(s.calls[p].pc) != [] && Left(t.calls[p].pc) == Left(s.calls[p].pc)[1..]
                    && DealsWith(s, p, Left(s.calls[p].pc)[0])))
  {
    if step.Work? && step.process == p {
      VisitOwnStep(s, p, step.listing);
    } else if step.Work? {
      StepPerforms(s, step);
      hide Inv, Apply;
    }
  }

  lemma VisitOwnStep(s: State, p: Process, listing: seq<Key>)
    requires Inv(s) && p in s.calls && Visiting(s.calls[p].pc) && s.calls[p].pc != Visit([])
    ensures var t := Advance(s, p, listing, false);
            && p in t.calls && Visiting(t.calls[p].pc)
            && (Left(t.calls[p].pc) == Left(s.calls[p].pc)
                || (Left(s.calls[p].pc) != [] && Left(t.calls[p].pc) == Left(s.calls[p].pc)[1..]
                    && DealsWith(s, p, Left(s.calls[p].pc)[0])))
  {
    assert WellFormed(s, p);
    if s.calls[p].pc.HoldEntry? {
      assert HoldsDigest(s.calls[p], s.calls[p].pc.entries[0]);
      assert s.digests[s.calls[p].pc.entries[0]] == p;
    }
    hide Inv;
  }

  /** The forget keeps to its listing and is not interrupted. */
  ghost predicate Undisturbed(states: seq<State>, steps: seq<Step>, i: nat, j: nat, p: Process)
    requires Run(states, steps) && i <= j < |states|
  {
    forall k :: i <= k < j && steps[k].Work? && steps[k].process == p ==>
      !steps[k].skip && p in states[k].calls && states[k].calls[p].pc != Visit([])
  }

  lemma VisitMove(states: seq<State>, steps: seq<Step>, k: nat, p: Process)
    requires Run(states, steps) && k + 1 < |states| && Undisturbed(states, steps, k, k + 1, p)
    requires p in states[k].calls && Visiting(states[k].calls[p].pc)
    ensures p in states[k + 1].calls && Visiting(states[k + 1].calls[p].pc)
    ensures var left, next := Left(states[k].calls[p].pc), Left(states[k + 1].calls[p].pc);
            next == left || (left != [] && next == left[1..] && DealsWith(states[k], p, left[0]))
  {
    RunInv(states, steps, k);
    VisitStep(states[k], steps[k], p);
  }

  lemma DealtGrows(states: seq<State>, i: nat, j: nat, p: Process, digest: Key)
    requires i <= j < |states| && (Dealt(states, i, j, p, digest) || DealsWith(states[j], p, digest))
    ensures Dealt(states, i, j + 1, p, digest)
  {
    if Dealt(states, i, j, p, digest) {
      var k :| i <= k < j && DealsWith(states[k], p, digest);
    }
  }

  lemma {:induction false} LeftOrDealt(states: seq<State>, steps: seq<Step>, i: nat, j: nat, p: Process, digest: Key)
    requires Run(states, steps) && i <= j < |states| && Undisturbed(states, steps, i, j, p)
    requires p in states[i].calls && Visiting(states[i].calls[p].pc) && digest in Left(states[i].calls[p].pc)
    ensures p in states[j].calls && Visiting(states[j].calls[p].pc)
    ensures digest in Left(states[j].calls[p].pc) || Dealt(states, i, j, p, digest)
  {
    hide Run, Left, Visiting, DealsWith, Dealt;
    if i < j {
      LeftOrDealt(states, steps, i, j - 1, p, digest);
      VisitMove(states, steps, j - 1, p);
      if Dealt(states, i, j - 1, p, digest) || DealsWith(states[j - 1], p, digest) {
        DealtGrows(states, i, j - 1, p, digest);
      }
    }
  }

  /** A forget that is not interrupted has, when nothing of its listing is left, held the lock of
      every digest that was listed, except those that were active when it looked. */
  lemma ForgetVisitsItsListing(states: seq<State>, steps: seq<Step>, i: nat, j: nat, p: Process, listing: seq<Key>)
    requires Run(states, steps) && i < j < |states|
    requires steps[i] == Work(p, listing, false) && states[i].calls[p].pc.HoldLegacy? && states[i].calls[p].kind.Forget?
    requires Undisturbed(states, steps, i + 1, j, p)
    requires p in states[j].calls && states[j].calls[p].pc == Visit([])
    ensures forall d :: d in listing ==> Dealt(states, i + 1, j, p, d)
  {
    assert states[i + 1].calls[p].pc == Visit(listing);
    forall d | d in listing ensures Dealt(states, i + 1, j, p, d) {
      LeftOrDealt(states, steps, i + 1, j, p, d);
    }
  }
}
