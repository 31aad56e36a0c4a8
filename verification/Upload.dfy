/** One upload: its data inode, its two directory entries, the lock on the inode, and any
    number of concurrent chunk, finish and abort calls.

    Every call opens the data file before it locks it and looks at the metadata after. That
    order is what makes late openers harmless. */
module Upload {
  import opened Common

  type Bytes = seq<Byte>
  type Handle = nat

  datatype Kind =
    | Chunk(offset: nat, payload: Bytes)
    | FinishToDestination
    | FinishToArtifact
    | Abort

  datatype Reply =
    | NotFound
    | Failed
    | InvalidOffset
    | VerificationFailed
    | DestinationExists
    | ChunkDone(nextOffset: nat, totalBytes: nat)
    | Moved(bytesWritten: nat)
    | ArtifactDone(handle: Handle)
    | Aborted

  datatype Pc =
    | Opening
    | Locking
    | Checking
    | Writing
    | Aborting
    | Recording(written: nat)
    | Moving
    | Copying
    | Publishing(copy: Bytes)
    | Replaying(locked: bool)
    | Removing(reply: Reply)
    | Unlocking(reply: Reply)
    | Done(reply: Reply)
  {
    predicate Consumes() {
      Aborting? || Moving? || Copying? || Publishing? || Removing?
    }

    predicate HoldsLock() {
      Checking? || Writing? || Aborting? || Recording? || Moving? || Copying? || Publishing? || Removing? || Unlocking?
          || (Replaying? && locked)
    }
  }

  datatype Call = Call(kind: Kind, pc: Pc)

  /** `mine` says that the artifact's source is this upload. */
  datatype Artifact = Artifact(bytes: Bytes, mine: bool)

  /** How an upload was consumed, and by which call. */
  datatype Consumption = ToDestination(caller: nat) | ToArtifact(caller: nat, handle: Handle) | ByAbort(caller: nat)

  /** A destination got the upload's own inode by rename, or a copy from another filesystem. */
  datatype Destination = Absent | Renamed | Copied(bytes: Bytes)

  /** What the last sync of the data file made safe, and the positions in it at which some write
      since then stored another byte. */
  datatype Safe = Safe(bytes: Bytes, dirty: set<nat>) {
    function Dirtied(data: Bytes): Safe {
      this.(dirty := dirty + set k | 0 <= k < |bytes| && (k >= |data| || data[k] != bytes[k]))
    }
  }

  /** `expectedSize` and `expectedDigest` never change. A digest is represented by the bytes
      it is the digest of. `taken` is what the data was when the upload was consumed. */
  datatype State = State(
    expectedSize: Option<nat>,
    expectedDigest: Option<Bytes>,
    data: Bytes,
    dataLinked: bool,
    metadataLinked: bool,
    currentBytes: nat,
    lock: Option<nat>,
    calls: map<nat, Call>,
    destination: Destination,
    artifacts: map<Handle, Artifact>,
    nextHandle: Handle,
    consumed: seq<Consumption>,
    taken: Bytes,
    safe: Safe)
  {
    function At(c: nat, pc: Pc): State
      requires c in calls
    {
      this.(calls := calls[c := calls[c].(pc := pc)])
    }

    predicate Verified() {
      Verifies(expectedSize, expectedDigest, data)
    }

    function Consume(how: Consumption): State {
      this.(consumed := consumed + [how], taken := data)
    }
  }

  /** The data has the size and the digest that were announced. */
  predicate Verifies(expectedSize: Option<nat>, expectedDigest: Option<Bytes>, data: Bytes) {
    && (expectedSize.Some? ==> |data| == expectedSize.value)
    && (expectedDigest.Some? ==> data == expectedDigest.value)
  }

  /** What the environment decides in one step of a call: whether system calls succeed, how
      many bytes a write stores, whether the destination exists or lies on another
      filesystem, and which directory entry is unlinked first. */
  datatype Choice = Choice(ok: bool, stored: nat, exists': bool, copies: bool, dataFirst: bool)

  /** A crash of the process ends every call that has not replied and frees the lock; it does not
      happen while a consumed upload is being removed. */
  datatype Step =
    | Arrive(caller: nat, kind: Kind)
    | Work(caller: nat, choice: Choice)
    | DeleteArtifact(handle: Handle)
    | ForeignArtifact(bytes: Bytes)
    | Crash

  predicate Begun(expectedSize: Option<nat>, expectedDigest: Option<Bytes>, s: State) {
    s == State(expectedSize, expectedDigest, [], true, true, 0, None, map[], Absent, map[], 0, [], [], Safe([], {}))
  }

  function WriteAt(data: Bytes, offset: nat, payload: Bytes): Bytes
    requires offset <= |data|
  {
    data[..offset] + payload + if offset + |payload| <= |data| then data[offset + |payload|..] else []
  }

  predicate Enabled(s: State, step: Step) {
    match step
    case Arrive(c, _) => c !in s.calls
    case Work(c, _) => c in s.calls && !s.calls[c].pc.Done? && (s.calls[c].pc.Locking? ==> s.lock.None?)
    case DeleteArtifact(h) => h in s.artifacts
    case ForeignArtifact(_) => true
    case Crash => !BeingRemoved(s)
  }

  ghost function Apply(s: State, step: Step): State
    requires Enabled(s, step)
  {
    match step
    case Arrive(c, kind) => s.(calls := s.calls[c := Call(kind, Opening)])
    case Work(c, choice) => Advance(s, c, choice)
    case DeleteArtifact(h) => s.(artifacts := s.artifacts - {h})
    case ForeignArtifact(bytes) =>
      s.(artifacts := s.artifacts[s.nextHandle := Artifact(bytes, false)], nextHandle := s.nextHandle + 1)
    case Crash => s.(calls := map c | c in s.calls && s.calls[c].pc.Done? :: s.calls[c], lock := None)
  }

  /** The consumer of an upload holds the lock until both directory entries are gone. */
  predicate BeingRemoved(s: State) {
    s.lock.Some? && s.lock.value in s.calls && s.calls[s.lock.value].pc.Removing?
  }

  /** One step of a call. It moves that call only, and without the lock it changes nothing but
      who holds the lock. */
  ghost function Advance(s: State, c: nat, choice: Choice): (t: State)
    requires c in s.calls
    ensures c in t.calls && t.calls == s.calls[c := s.calls[c].(pc := t.calls[c].pc)]
    ensures t.expectedSize == s.expectedSize && t.expectedDigest == s.expectedDigest
    ensures !s.calls[c].pc.HoldsLock() ==> t == s.(calls := t.calls, lock := t.lock)
  {
    var Call(kind, pc) := s.calls[c];
    match pc
    case Opening =>
      if s.dataLinked then s.At(c, if choice.ok then Locking else Done(Failed))
      else s.At(c, if kind.FinishToArtifact? then Replaying(false) else Done(NotFound))
    case Locking => s.At(c, Checking).(lock := Some(c))
    case Checking => s.At(c, AfterCheck(s.metadataLinked, |s.data|, s.Verified(), kind, choice.ok))
    case Writing => Write(s, c, choice)
    case Recording(written) =>
      if choice.ok && kind.Chunk? then
        s.At(c, Unlocking(ChunkDone(kind.offset + written, |s.data|))).(currentBytes := |s.data|)
      else s.At(c, Unlocking(Failed))
    case Replaying(locked) =>
      s.At(c, if locked then Unlocking(Scan(s, choice, Failed)) else Done(Scan(s, choice, NotFound)))
    case Unlocking(reply) => s.At(c, Done(reply)).(lock := None)
    case Done(_) => s
    case _ => Consuming(s, c, choice)
  }

  /** One step of a call that is about to consume the upload, or has done so. */
  function Consuming(s: State, c: nat, choice: Choice): (t: State)
    requires c in s.calls && s.calls[c].pc.Consumes()
    ensures c in t.calls && t.calls == s.calls[c := s.calls[c].(pc := t.calls[c].pc)]
    ensures t.expectedSize == s.expectedSize && t.expectedDigest == s.expectedDigest && t.lock == s.lock
  {
    match s.calls[c].pc
    case Aborting => s.At(c, Removing(Aborted)).Consume(ByAbort(c))
    case Moving =>
      if choice.exists' then s.At(c, Unlocking(DestinationExists))
      else if !choice.ok then s.At(c, Unlocking(Failed))
      else
        var moved := s.At(c, Removing(Moved(|s.data|))).Consume(ToDestination(c));
        if choice.copies then moved.(destination := Copied(s.data))
        else moved.(destination := Renamed, dataLinked := false)
    case Copying => s.At(c, if choice.ok then Publishing(s.data) else Unlocking(Failed))
    case Publishing(copy) =>
      if choice.ok then
        s.At(c, Removing(ArtifactDone(s.nextHandle))).Consume(ToArtifact(c, s.nextHandle)).(
          artifacts := s.artifacts[s.nextHandle := Artifact(copy, true)], nextHandle := s.nextHandle + 1)
      else s.At(c, Unlocking(Failed))
    case Removing(reply) =>
      if !s.dataLinked && !s.metadataLinked then s.At(c, Unlocking(reply))
      else if s.dataLinked && (choice.dataFirst || !s.metadataLinked) then s.(dataLinked := false)
      else s.(metadataLinked := false)
  }

  /** Where the metadata and the verification lead a call that has just taken the lock. */
  function AfterCheck(metadataLinked: bool, size: nat, verified: bool, kind: Kind, ok: bool): Pc {
    if !metadataLinked then if kind.FinishToArtifact? then Replaying(true) else Unlocking(Failed)
    else if !ok then Unlocking(Failed)
    else match kind
      case Chunk(offset, _) => if offset > size then Unlocking(InvalidOffset) else Writing
      case FinishToDestination => if verified then Moving else Unlocking(VerificationFailed)
      case FinishToArtifact => if verified then Copying else Unlocking(VerificationFailed)
      case Abort => Aborting
  }

  function Write(s: State, c: nat, choice: Choice): State
    requires c in s.calls
  {
    var kind := s.calls[c].kind;
    if !kind.Chunk? || kind.offset > |s.data| then s.At(c, Unlocking(Failed))
    else if choice.stored < |kind.payload| || !choice.ok then
      var stored := if choice.stored < |kind.payload| then kind.payload[..choice.stored] else kind.payload;
      var data := WriteAt(s.data, kind.offset, stored);
      s.At(c, Unlocking(Failed)).(data := data, safe := s.safe.Dirtied(data))
    else
      var data := WriteAt(s.data, kind.offset, kind.payload);
      s.At(c, Recording(|kind.payload|)).(data := data, safe := Safe(data, {}))
  }

  predicate IsMine(s: State, h: Handle) {
    h in s.artifacts && s.artifacts[h].mine
  }

  /** Looking for an artifact made from this upload. */
  ghost function Scan(s: State, choice: Choice, otherwise: Reply): Reply {
    if !choice.ok then Failed
    else if exists h :: IsMine(s, h) then
      var h :| IsMine(s, h);
      ArtifactDone(h)
    else otherwise
  }

  // ----- invariants -----

  ghost predicate Exclusive(calls: map<nat, Call>, lock: Option<nat>) {
    && (forall c :: c in calls && calls[c].pc.HoldsLock() ==> lock == Some(c))
    && (lock.Some? ==> lock.value in calls && calls[lock.value].pc.HoldsLock())
  }

  ghost predicate ConsumedOnce(s: State) {
    && |s.consumed| <= 1
    && (s.consumed == [] ==> s.dataLinked && s.metadataLinked && s.destination.Absent?)
    && (s.consumed != [] ==> s.data == s.taken && (s.dataLinked || s.metadataLinked ==> BeingRemoved(s)))
    && (!s.destination.Absent? <==> s.consumed != [] && s.consumed[0].ToDestination?)
    && (s.destination.Copied? ==> s.destination.bytes == s.taken)
    && (s.consumed != [] && !s.consumed[0].ByAbort? ==> s.Verified())
    && s.currentBytes <= |s.data|
  }

  ghost predicate ArtifactsKnown(s: State) {
    && (forall h :: h in s.artifacts ==> h < s.nextHandle)
    && (forall h :: IsMine(s, h) ==> From(s.consumed, h) && s.artifacts[h].bytes == s.taken)
  }

  /** What a call knows while it holds the lock, and what its reply says. */
  ghost predicate Knows(s: State, c: nat)
    requires c in s.calls
  {
    var Call(kind, pc) := s.calls[c];
    match pc
    case Writing => s.consumed == []
    case Aborting => s.consumed == []
    case Recording(written) =>
      && s.consumed == [] && kind.Chunk? && written == |kind.payload| && kind.offset + written <= |s.data|
      && s.safe == Safe(s.data, {})
    case Moving => s.consumed == [] && s.Verified()
    case Copying => s.consumed == [] && s.Verified()
    case Publishing(copy) => s.consumed == [] && s.Verified() && copy == s.data
    case Removing(reply) => s.consumed != [] && True(s, c, reply)
    case Unlocking(reply) => True(s, c, reply)
    case Done(reply) => True(s, c, reply)
    case _ => true
  }

  /** A successful reply names the one way in which the upload was consumed; the reply to a
      chunk says where it ends and how much data there was. */
  ghost predicate True(s: State, c: nat, reply: Reply)
    requires c in s.calls
  {
    match reply
    case ChunkDone(next, total) =>
      var kind := s.calls[c].kind;
      kind.Chunk? && next == kind.offset + |kind.payload| && next <= total <= |s.data|
    case Moved(bytesWritten) => s.consumed == [ToDestination(c)] && bytesWritten == |s.taken|
    case ArtifactDone(h) => From(s.consumed, h)
    case Aborted => s.consumed == [ByAbort(c)]
    case _ => true
  }

  predicate From(consumed: seq<Consumption>, h: Handle) {
    |consumed| == 1 && consumed[0].ToArtifact? && consumed[0].handle == h
  }

  ghost predicate Inv(s: State) {
    Exclusive(s.calls, s.lock) && ConsumedOnce(s) && ArtifactsKnown(s) && forall c :: c in s.calls ==> Knows(s, c)
  }

  lemma MoveExclusive(calls: map<nat, Call>, lock: Option<nat>, c: nat, pc: Pc)
    requires Exclusive(calls, lock) && c in calls && pc.HoldsLock() == calls[c].pc.HoldsLock()
    ensures Exclusive(calls[c := calls[c].(pc := pc)], lock)
  {
  }

  lemma LockExclusive(calls: map<nat, Call>, c: nat)
    requires Exclusive(calls, None) && c in calls
    ensures Exclusive(calls[c := calls[c].(pc := Checking)], Some(c))
  {
  }

  lemma UnlockExclusive(calls: map<nat, Call>, lock: Option<nat>, c: nat, reply: Reply)
    requires Exclusive(calls, lock) && c in calls && calls[c].pc.HoldsLock()
    ensures Exclusive(calls[c := calls[c].(pc := Done(reply))], None)
  {
  }

  /** Only locking and unlocking change who holds the lock. */
  lemma AdvanceLock(s: State, c: nat, choice: Choice)
    requires c in s.calls
    ensures var t := Advance(s, c, choice);
            c in t.calls &&
            if s.calls[c].pc.Locking? then t.lock == Some(c) && t.calls[c].pc == Checking
            else if s.calls[c].pc.Unlocking? then t.lock == None && t.calls[c].pc == Done(s.calls[c].pc.reply)
            else t.lock == s.lock && t.calls[c].pc.HoldsLock() == s.calls[c].pc.HoldsLock()
  {
    hide WriteAt, Scan;
    match s.calls[c].pc
    case Checking =>
    case Writing =>
    case _ =>
  }

  lemma ExclusiveStep(s: State, step: Step)
    requires Exclusive(s.calls, s.lock) && Enabled(s, step)
    ensures Exclusive(Apply(s, step).calls, Apply(s, step).lock)
  {
    hide Advance;
    if step.Work? {
      var c, t := step.caller, Apply(s, step);
      AdvanceLock(s, c, step.choice);
      if s.calls[c].pc.Locking? { LockExclusive(s.calls, c); }
      else if s.calls[c].pc.Unlocking? { UnlockExclusive(s.calls, s.lock, c, s.calls[c].pc.reply); }
      else { MoveExclusive(s.calls, s.lock, c, t.calls[c].pc); }
    }
  }

  lemma ConsumedOnceElsewhere(s: State, step: Step)
    requires Inv(s) && Enabled(s, step) && !(step.Work? && s.calls[step.caller].pc.HoldsLock())
    ensures ConsumedOnce(Apply(s, step))
  {
    if step.Work? { AdvanceLock(s, step.caller, step.choice); }
    hide Advance;
    if BeingRemoved(s) { assert BeingRemoved(Apply(s, step)); }
  }

  lemma ConsumedOnceWorking(s: State, c: nat, choice: Choice)
    requires Inv(s) && c in s.calls && s.calls[c].pc.HoldsLock()
    requires var pc := s.calls[c].pc;
             pc.Checking? || pc.Writing? || pc.Recording? || pc.Copying? || pc.Replaying? || pc.Unlocking?
    ensures ConsumedOnce(Advance(s, c, choice))
  {
    assert Knows(s, c) && !BeingRemoved(s);
  }

  lemma ConsumedOnceConsuming(s: State, c: nat, choice: Choice)
    requires Inv(s) && c in s.calls
    requires var pc := s.calls[c].pc; pc.Aborting? || pc.Moving? || pc.Publishing? || pc.Removing?
    ensures ConsumedOnce(Advance(s, c, choice))
  {
    assert Knows(s, c);
    assert forall how: Consumption :: [] + [how] == [how];
    var t := Advance(s, c, choice);
    if t.consumed != [] && t.calls[c].pc.Removing? { assert BeingRemoved(t); }
  }

  lemma ConsumedOnceStep(s: State, step: Step)
    requires Inv(s) && Enabled(s, step)
    ensures ConsumedOnce(Apply(s, step))
  {
    if !(step.Work? && s.calls[step.caller].pc.HoldsLock()) {
      ConsumedOnceElsewhere(s, step);
    } else {
      var pc := s.calls[step.caller].pc;
      if pc.Aborting? || pc.Moving? || pc.Publishing? || pc.Removing? {
        ConsumedOnceConsuming(s, step.caller, step.choice);
      } else {
        ConsumedOnceWorking(s, step.caller, step.choice);
      }
    }
  }

  lemma WorkKeepsConsumption(s: State, c: nat, choice: Choice)
    requires c in s.calls && !s.calls[c].pc.Consumes()
    ensures var t := Advance(s, c, choice);
            && t.consumed == s.consumed && t.taken == s.taken && t.destination == s.destination
            && t.artifacts == s.artifacts && t.nextHandle == s.nextHandle
  {
    if s.calls[c].pc.HoldsLock() {
      hide WriteAt, Scan, AfterCheck, Consuming;
      match s.calls[c].pc
      case Writing =>
      case Recording(_) =>
      case _ =>
    } else {
      hide Advance;
    }
  }

  lemma ArtifactsKnownConsuming(s: State, c: nat, choice: Choice)
    requires c in s.calls && s.calls[c].pc.Consumes() && Knows(s, c) && ArtifactsKnown(s)
    ensures ArtifactsKnown(Consuming(s, c, choice))
  {
    var t := Consuming(s, c, choice);
    assert forall how: Consumption :: [] + [how] == [how];
    forall h | IsMine(t, h) ensures From(t.consumed, h) && t.artifacts[h].bytes == t.taken {
      assert IsMine(s, h) || h == s.nextHandle;
    }
  }

  lemma ArtifactsKnownStep(s: State, step: Step)
    requires Inv(s) && Enabled(s, step)
    ensures ArtifactsKnown(Apply(s, step))
  {
    var t := Apply(s, step);
    if step.Work? && s.calls[step.caller].pc.Consumes() {
      ArtifactsKnownConsuming(s, step.caller, step.choice);
    } else {
      if step.Work? { WorkKeepsConsumption(s, step.caller, step.choice); }
      hide Advance, From;
      forall h | IsMine(t, h) ensures From(t.consumed, h) && t.artifacts[h].bytes == t.taken {
        assert IsMine(s, h);
      }
    }
  }

  lemma KindStep(s: State, step: Step, c: nat)
    requires Enabled(s, step) && c in Apply(s, step).calls
    ensures if c in s.calls then Apply(s, step).calls[c].kind == s.calls[c].kind
            else step.Arrive? && Apply(s, step).calls[c] == Call(step.kind, Opening)
  {
    hide Advance;
  }

  /** Nothing that matters to the holder of the lock, or to a reply, changes behind its back. */
  lemma OthersWait(s: State, step: Step, c: nat)
    requires Inv(s) && Enabled(s, step) && c in s.calls && !(step.Work? && step.caller == c)
    requires step.Crash? ==> s.calls[c].pc.Done?
    ensures var t := Apply(s, step);
            && c in t.calls && t.calls[c] == s.calls[c]
            && t.expectedSize == s.expectedSize && t.expectedDigest == s.expectedDigest
            && (s.consumed != [] ==> t.consumed == s.consumed && t.taken == s.taken)
            && |s.data| <= |t.data|
            && (s.calls[c].pc.HoldsLock() ==>
                  t.consumed == s.consumed && t.taken == s.taken && t.data == s.data && t.safe == s.safe)
  {
    if step.Work? {
      assert Knows(s, step.caller);
    }
  }

  lemma KnowsOther(s: State, step: Step, c: nat)
    requires Inv(s) && Enabled(s, step) && c in s.calls && !(step.Work? && step.caller == c)
    requires step.Crash? ==> s.calls[c].pc.Done?
    ensures Knows(Apply(s, step), c)
  {
    hide Advance;
    OthersWait(s, step, c);
    assert Knows(s, c);
  }

  lemma KnowsOpening(s: State, c: nat, choice: Choice)
    requires Inv(s) && c in s.calls && !s.calls[c].pc.HoldsLock()
    ensures Knows(Advance(s, c, choice), c)
  {
    assert Knows(s, c);
  }

  lemma KnowsChecking(s: State, c: nat, choice: Choice)
    requires Inv(s) && c in s.calls && s.calls[c].pc.Checking?
    ensures Knows(Advance(s, c, choice), c)
  {
    assert !BeingRemoved(s);
  }

  lemma KnowsHolding(s: State, c: nat, choice: Choice)
    requires Inv(s) && c in s.calls && s.calls[c].pc.HoldsLock() && !s.calls[c].pc.Checking?
    ensures Knows(Advance(s, c, choice), c)
  {
    assert Knows(s, c);
    assert forall how: Consumption :: [] + [how] == [how];
  }

  lemma KnowsStep(s: State, step: Step, c: nat)
    requires Inv(s) && Enabled(s, step) && c in Apply(s, step).calls
    ensures Knows(Apply(s, step), c)
  {
    hide Advance;
    if step.Work? && step.caller == c {
      if s.calls[c].pc.Checking? { KnowsChecking(s, c, step.choice); }
      else if s.calls[c].pc.HoldsLock() { KnowsHolding(s, c, step.choice); }
      else { KnowsOpening(s, c, step.choice); }
    } else if c in s.calls {
      KnowsOther(s, step, c);
    } else {
      KindStep(s, step, c);
    }
  }

  lemma InvStep(s: State, step: Step)
    requires Inv(s) && Enabled(s, step)
    ensures Inv(Apply(s, step))
  {
    hide Advance, Knows, ConsumedOnce, ArtifactsKnown, Exclusive;
    ExclusiveStep(s, step);
    ConsumedOnceStep(s, step);
    ArtifactsKnownStep(s, step);
    forall c | c in Apply(s, step).calls ensures Knows(Apply(s, step), c) { KnowsStep(s, step, c); }
  }

  // ----- whole runs -----

  ghost predicate Run(states: seq<State>, steps: seq<Step>) {
    && |states| == |steps| + 1 && Begun(states[0].expectedSize, states[0].expectedDigest, states[0])
    && (forall i :: 0 <= i < |steps| ==> Enabled(states[i], steps[i]) && states[i + 1] == Apply(states[i], steps[i]))
  }

  lemma {:induction false} RunInv(states: seq<State>, steps: seq<Step>, i: nat)
    requires Run(states, steps) && i < |states|
    ensures Inv(states[i])
  {
    if i > 0 {
      RunInv(states, steps, i - 1);
      InvStep(states[i - 1], steps[i - 1]);
    }
  }

  predicate Succeeded(s: State, c: nat) {
    c in s.calls && s.calls[c].pc.Done?
        && (s.calls[c].pc.reply.Moved? || s.calls[c].pc.reply.ArtifactDone? || s.calls[c].pc.reply.Aborted?)
  }

  /** Single consumption: over all interleavings at most one finish or abort takes effect.
      Two calls can both report success only as finishes of one and the same artifact. */
  lemma SingleConsumption(states: seq<State>, steps: seq<Step>, i: nat, c: nat, d: nat)
    requires Run(states, steps) && i < |states|
    requires Succeeded(states[i], c) && Succeeded(states[i], d) && c != d
    ensures |states[i].consumed| == 1 && states[i].consumed[0].ToArtifact?
    ensures states[i].calls[c].pc.reply == states[i].calls[d].pc.reply == ArtifactDone(states[i].consumed[0].handle)
  {
    RunInv(states, steps, i);
    assert Knows(states[i], c) && Knows(states[i], d);
  }

  lemma KeptStep(s: State, step: Step)
    requires Inv(s) && Enabled(s, step) && s.consumed != []
    ensures var t := Apply(s, step);
            t.consumed == s.consumed && t.taken == s.taken && t.data == s.data && t.destination == s.destination
  {
    if step.Work? { assert Knows(s, step.caller); }
  }

  lemma {:induction false} Kept(states: seq<State>, steps: seq<Step>, i: nat, j: nat)
    requires Run(states, steps) && i <= j < |states| && states[i].consumed != []
    ensures states[j].consumed == states[i].consumed && states[j].data == states[i].data
              && states[j].taken == states[i].taken
    ensures states[j].destination == states[i].destination
  {
    if i < j {
      Kept(states, steps, i, j - 1);
      RunInv(states, steps, j - 1);
      KeptStep(states[j - 1], steps[j - 1]);
    }
  }

  /** From the moment an upload is consumed, no call that opened the file earlier can change
      one byte: not of the inode that was renamed to the destination, not of a copy, and not
      of the artifact. */
  lemma PublishedBytesNeverChange(states: seq<State>, steps: seq<Step>, i: nat, j: nat)
    requires Run(states, steps) && i <= j < |states| && states[i].consumed != []
    ensures states[j].consumed == states[i].consumed && states[j].data == states[i].data
    ensures states[j].destination == states[i].destination
    ensures states[j].destination.Copied? ==> states[j].destination.bytes == states[i].data
    ensures forall h :: IsMine(states[j], h) ==> states[j].artifacts[h].bytes == states[i].data
  {
    Kept(states, steps, i, j);
    RunInv(states, steps, j);
  }

  /** However often and however concurrently an upload is finished as an artifact, one
      artifact is ever made from it, and every successful reply carries its handle. */
  lemma OneArtifact(states: seq<State>, steps: seq<Step>, i: nat, j: nat, c: nat, d: nat)
    requires Run(states, steps) && i <= j < |states|
    requires c in states[i].calls && states[i].calls[c].pc.Done? && states[i].calls[c].pc.reply.ArtifactDone?
    requires d in states[j].calls && states[j].calls[d].pc.Done? && states[j].calls[d].pc.reply.ArtifactDone?
    ensures states[i].calls[c].pc.reply == states[j].calls[d].pc.reply
    ensures forall h :: IsMine(states[j], h) ==> ArtifactDone(h) == states[i].calls[c].pc.reply
  {
    RunInv(states, steps, i);
    RunInv(states, steps, j);
    assert Knows(states[i], c) && Knows(states[j], d);
    Kept(states, steps, i, j);
  }

  // ----- what was announced -----

  /** Something the upload was made into: the inode under its destination, a copy of it, or an
      artifact. */
  predicate MadeInto(s: State, bytes: Bytes) {
    || (s.destination.Renamed? && bytes == s.data)
    || (s.destination.Copied? && bytes == s.destination.bytes)
    || (exists h :: h in s.artifacts && s.artifacts[h].mine && s.artifacts[h].bytes == bytes)
  }

  lemma {:induction false} KeepsAnnouncement(states: seq<State>, steps: seq<Step>, i: nat)
    requires Run(states, steps) && i < |states|
    ensures states[i].expectedSize == states[0].expectedSize && states[i].expectedDigest == states[0].expectedDigest
  {
    if i > 0 {
      hide Advance;
      KeepsAnnouncement(states, steps, i - 1);
    }
  }

  /** Whatever chunks were sent, everything an upload is ever made into has the size that was
      announced at its beginning, and the content whose digest was announced. */
  lemma PublishedAsAnnounced(states: seq<State>, steps: seq<Step>, i: nat, bytes: Bytes)
    requires Run(states, steps) && i < |states| && MadeInto(states[i], bytes)
    ensures states[0].expectedSize.Some? ==> |bytes| == states[0].expectedSize.value
    ensures states[0].expectedDigest.Some? ==> bytes == states[0].expectedDigest.value
  {
    RunInv(states, steps, i);
    KeepsAnnouncement(states, steps, i);
    assert forall h :: h in states[i].artifacts && states[i].artifacts[h].mine ==> IsMine(states[i], h);
  }

  /** A finish that has taken the lock and found the metadata fails its verification exactly when
      the data differs in size or digest from what was announced, and goes on otherwise. */
  lemma VerifiesExactly(s: State, c: nat, choice: Choice)
    requires c in s.calls && s.calls[c].pc.Checking? && s.metadataLinked && choice.ok
    requires s.calls[c].kind.FinishToDestination? || s.calls[c].kind.FinishToArtifact?
    ensures var differs := (s.expectedSize.Some? && |s.data| != s.expectedSize.value)
                           || (s.expectedDigest.Some? && s.data != s.expectedDigest.value);
            Advance(s, c, choice) ==
            s.At(c, if differs then Unlocking(VerificationFailed)
                    else if s.calls[c].kind.FinishToDestination? then Moving else Copying)
  {
  }

  /** A chunk that has taken the lock and found the metadata is refused exactly when it begins
      beyond the end of the data, and is written otherwise. */
  lemma ChunksAreTakenExactly(s: State, c: nat, choice: Choice)
    requires c in s.calls && s.calls[c].pc.Checking? && s.metadataLinked && choice.ok && s.calls[c].kind.Chunk?
    ensures Advance(s, c, choice) ==
            s.At(c, if s.calls[c].kind.offset > |s.data| then Unlocking(InvalidOffset) else Writing)
  {
  }

  // ----- resumable uploads -----

  /** A chunk agrees with a payload when it carries the payload's bytes at its own offset. */
  predicate Agrees(kind: Kind, whole: Bytes) {
    kind.Chunk? ==>
      && kind.offset + |kind.payload| <= |whole|
      && kind.payload == whole[kind.offset..kind.offset + |kind.payload|]
  }

  /** A write at or before the end replaces exactly its range and leaves no gap. */
  lemma WriteAtExactly(data: Bytes, offset: nat, payload: Bytes)
    requires offset <= |data|
    ensures var after := WriteAt(data, offset, payload);
            && |after| == (if offset + |payload| > |data| then offset + |payload| else |data|)
            && after[offset..offset + |payload|] == payload
            && after[..offset] == data[..offset]
            && (forall k :: offset + |payload| <= k < |data| ==> after[k] == data[k])
  {
    var after := WriteAt(data, offset, payload);
    assert after[..offset] == data[..offset];
    assert after[offset..offset + |payload|] == payload;
  }

  /** A chunk that goes on to be acknowledged has put exactly its payload at its offset. */
  lemma AcknowledgedChunk(states: seq<State>, steps: seq<Step>, i: nat, c: nat)
    requires Run(states, steps) && i < |steps| && steps[i].Work? && steps[i].caller == c
    requires states[i].calls[c].pc.Writing? && c in states[i + 1].calls && states[i + 1].calls[c].pc.Recording?
    ensures var kind := states[i].calls[c].kind;
            && kind.Chunk? && kind.offset + |kind.payload| <= |states[i + 1].data|
            && states[i + 1].data[kind.offset..kind.offset + |kind.payload|] == kind.payload
            && |states[i].data| <= |states[i + 1].data|
            && (forall k :: 0 <= k < |states[i].data| && !(kind.offset <= k < kind.offset + |kind.payload|) ==>
                  states[i + 1].data[k] == states[i].data[k])
  {
    var kind := states[i].calls[c].kind;
    assert kind.Chunk? && kind.offset <= |states[i].data|;
    WriteAtExactly(states[i].data, kind.offset, kind.payload);
    var after := WriteAt(states[i].data, kind.offset, kind.payload);
    forall k | 0 <= k < kind.offset ensures after[k] == states[i].data[k] {
      assert after[k] == after[..kind.offset][k];
    }
  }

  /** A reply to a chunk names the end of that chunk, and a size that the data had then and has
      not lost since. */
  lemma ChunkRepliesAreTrue(states: seq<State>, steps: seq<Step>, i: nat, c: nat)
    requires Run(states, steps) && i < |states| && c in states[i].calls
    requires states[i].calls[c].pc.Done? && states[i].calls[c].pc.reply.ChunkDone?
    ensures var Call(kind, pc) := states[i].calls[c];
            && kind.Chunk? && pc.reply.nextOffset == kind.offset + |kind.payload|
            && pc.reply.nextOffset <= pc.reply.totalBytes <= |states[i].data|
  {
    RunInv(states, steps, i);
    assert Knows(states[i], c);
  }

  lemma WriteKeepsPrefix(data: Bytes, offset: nat, payload: Bytes, whole: Bytes)
    requires data <= whole && offset <= |data|
    requires offset + |payload| <= |whole| && payload == whole[offset..offset + |payload|]
    ensures data <= WriteAt(data, offset, payload) <= whole
  {
    WriteAtExactly(data, offset, payload);
    var after := WriteAt(data, offset, payload);
    forall k | 0 <= k < |after| ensures after[k] == whole[k] {
      if k < offset { assert after[k] == after[..offset][k]; }
      else if k < offset + |payload| { assert after[k] == after[offset..offset + |payload|][k - offset]; }
    }
  }

  lemma {:induction false} AllAgree(states: seq<State>, steps: seq<Step>, i: nat, whole: Bytes)
    requires Run(states, steps) && i < |states|
    requires forall k :: 0 <= k < |steps| && steps[k].Arrive? ==> Agrees(steps[k].kind, whole)
    ensures forall c :: c in states[i].calls ==> Agrees(states[i].calls[c].kind, whole)
  {
    if i > 0 {
      AllAgree(states, steps, i - 1, whole);
      forall c | c in states[i].calls ensures Agrees(states[i].calls[c].kind, whole) {
        KindStep(states[i - 1], steps[i - 1], c);
      }
    }
  }

  lemma PrefixStep(s: State, step: Step, whole: Bytes)
    requires Enabled(s, step) && s.data <= whole
    requires forall c :: c in s.calls ==> Agrees(s.calls[c].kind, whole)
    ensures s.data <= Apply(s, step).data <= whole
  {
    if step.Work? && s.calls[step.caller].pc.Writing? {
      var kind := s.calls[step.caller].kind;
      if kind.Chunk? && kind.offset <= |s.data| {
        WriteKeepsPrefix(s.data, kind.offset, kind.payload, whole);
        if step.choice.stored < |kind.payload| {
          WriteKeepsPrefix(s.data, kind.offset, kind.payload[..step.choice.stored], whole);
        }
      }
    }
  }

  /** Whatever an upload was made into - the inode under its destination, a copy of it, an
      artifact - holds these bytes. */
  predicate OnlyPublishes(s: State, whole: Bytes) {
    && (s.destination.Renamed? ==> s.data == whole)
    && (s.destination.Copied? ==> s.destination.bytes == whole)
    && (forall h :: h in s.artifacts && s.artifacts[h].mine ==> s.artifacts[h].bytes == whole)
    && (s.consumed != [] && !s.consumed[0].ByAbort? ==> s.taken == whole)
  }

  /** Resumable upload: when every chunk agrees with one payload, then in any order, with any
      retries, overlaps, failed and partial writes, the data is a growing prefix of it, the
      recorded byte count never runs ahead, and a finish that was told the payload's size
      publishes exactly the payload. */
  lemma ResumableUpload(states: seq<State>, steps: seq<Step>, i: nat, whole: Bytes)
    requires Run(states, steps) && i < |states|
    requires forall k :: 0 <= k < |steps| && steps[k].Arrive? ==> Agrees(steps[k].kind, whole)
    ensures states[i].data <= whole && states[i].currentBytes <= |states[i].data|
    ensures i > 0 ==> states[i - 1].data <= states[i].data
    ensures states[i].expectedSize == Some(|whole|) ==> OnlyPublishes(states[i], whole)
  {
    hide Apply, Run;
    RunInv(states, steps, i);
    GrowingPrefix(states, steps, i, whole);
    assert forall h :: h in states[i].artifacts && states[i].artifacts[h].mine ==> IsMine(states[i], h);
  }

  lemma {:induction false} GrowingPrefix(states: seq<State>, steps: seq<Step>, i: nat, whole: Bytes)
    requires Run(states, steps) && i < |states|
    requires forall k :: 0 <= k < |steps| && steps[k].Arrive? ==> Agrees(steps[k].kind, whole)
    ensures states[i].data <= whole
    ensures i > 0 ==> states[i - 1].data <= states[i].data
  {
    hide Apply;
    if i > 0 {
      GrowingPrefix(states, steps, i - 1, whole);
      AllAgree(states, steps, i - 1, whole);
      PrefixStep(states[i - 1], steps[i - 1], whole);
    }
  }

  // ----- power losses -----

  /** What a power loss may leave of the data file: never less than was synced, and every synced
      byte that no write has changed since. */
  predicate MayLeave(s: State, contents: Bytes) {
    && |contents| >= |s.safe.bytes|
    && (forall k :: 0 <= k < |s.safe.bytes| && k !in s.safe.dirty ==> contents[k] == s.safe.bytes[k])
  }

  /** The recorded size is that of an earlier sync. */
  ghost predicate Saved(s: State) {
    && s.currentBytes <= |s.safe.bytes| <= |s.data|
    && (forall k :: 0 <= k < |s.safe.bytes| && k !in s.safe.dirty ==> s.data[k] == s.safe.bytes[k])
  }

  lemma SavedStep(s: State, step: Step)
    requires Inv(s) && Enabled(s, step) && Saved(s)
    ensures Saved(Apply(s, step))
  {
    if step.Work? { SavedWork(s, step.caller, step.choice); } else { hide Advance; }
  }

  lemma SavedWork(s: State, c: nat, choice: Choice)
    requires c in s.calls && Knows(s, c) && Saved(s)
    ensures Saved(Advance(s, c, choice))
  {
    if s.calls[c].pc.Writing? {
      SavedWrite(s, c, choice);
    } else {
      WorkKeepsData(s, c, choice);
      hide Advance;
    }
  }

  /** Only writing touches the data, and only recording the recorded size. */
  lemma WorkKeepsData(s: State, c: nat, choice: Choice)
    requires c in s.calls && !s.calls[c].pc.Writing?
    ensures var t := Advance(s, c, choice);
            && t.data == s.data && t.safe == s.safe
            && (t.currentBytes == s.currentBytes || (s.calls[c].pc.Recording? && t.currentBytes == |s.data|))
  {
    if s.calls[c].pc.HoldsLock() {
      hide Write, WriteAt, Scan, AfterCheck;
      match s.calls[c].pc
      case Recording(_) =>
      case _ =>
    } else {
      hide Advance;
    }
  }

  lemma SavedWrite(s: State, c: nat, choice: Choice)
    requires c in s.calls && Saved(s)
    ensures Saved(Write(s, c, choice))
  {
    var kind := s.calls[c].kind;
    if kind.Chunk? && kind.offset <= |s.data| {
      WriteAtExactly(s.data, kind.offset, kind.payload);
      if choice.stored < |kind.payload| { WriteAtExactly(s.data, kind.offset, kind.payload[..choice.stored]); }
    }
  }

  lemma {:induction false} RunSaved(states: seq<State>, steps: seq<Step>, i: nat)
    requires Run(states, steps) && i < |states|
    ensures Saved(states[i])
  {
    if i > 0 {
      RunSaved(states, steps, i - 1);
      RunInv(states, steps, i - 1);
      hide Apply, Inv, Saved;
      SavedStep(states[i - 1], steps[i - 1]);
    }
  }

  /** The data file is synced before its size is recorded: whatever a power loss leaves, the bytes
      up to the recorded size are those of the file, except where a write that was not
      acknowledged stored another byte over them. */
  lemma RecordedBytesSurvive(states: seq<State>, steps: seq<Step>, i: nat, contents: Bytes)
    requires Run(states, steps) && i < |states| && MayLeave(states[i], contents)
    ensures states[i].currentBytes <= |contents| && states[i].currentBytes <= |states[i].data|
    ensures forall k :: 0 <= k < states[i].currentBytes && k !in states[i].safe.dirty ==>
              contents[k] == states[i].data[k]
  {
    RunSaved(states, steps, i);
  }

  lemma {:induction false} StaysClean(states: seq<State>, steps: seq<Step>, i: nat, whole: Bytes)
    requires Run(states, steps) && i < |states|
    requires forall k :: 0 <= k < |steps| && steps[k].Arrive? ==> Agrees(steps[k].kind, whole)
    ensures states[i].safe.bytes <= states[i].data <= whole && states[i].safe.dirty == {}
  {
    if i > 0 {
      StaysClean(states, steps, i - 1, whole);
      GrowingPrefix(states, steps, i, whole);
      hide Apply;
      SafeStep(states[i - 1], steps[i - 1]);
    }
  }

  /** A step syncs all of the data, or notes where it differs from what was synced. */
  lemma SafeStep(s: State, step: Step)
    requires Enabled(s, step)
    ensures var t := Apply(s, step); t.safe in {s.safe, s.safe.Dirtied(t.data), Safe(t.data, {})}
  {
    if step.Work? && !s.calls[step.caller].pc.Writing? {
      WorkKeepsData(s, step.caller, step.choice);
      hide Advance;
    }
  }

  /** So where all chunks agree with one payload, a power loss at any moment leaves the payload up
      to the recorded size, and the upload can be resumed from there. */
  lemma ResumableAfterPowerLoss(states: seq<State>, steps: seq<Step>, i: nat, whole: Bytes, contents: Bytes)
    requires Run(states, steps) && i < |states| && MayLeave(states[i], contents)
    requires forall k :: 0 <= k < |steps| && steps[k].Arrive? ==> Agrees(steps[k].kind, whole)
    ensures states[i].currentBytes <= |contents| && states[i].currentBytes <= |whole|
    ensures contents[..states[i].currentBytes] == whole[..states[i].currentBytes]
  {
    RunSaved(states, steps, i);
    StaysClean(states, steps, i, whole);
  }

  /** Every finish as an artifact that finds the data or the metadata gone, before or under the
      lock, is given the artifact made from this upload, unless that was deleted or the scan
      fails. */
  lemma FinishedStaysReplayable(states: seq<State>, steps: seq<Step>, i: nat, c: nat, h: Handle)
    requires Run(states, steps) && i < |steps|
    requires IsMine(states[i], h)
    requires steps[i].Work? && steps[i].caller == c && steps[i].choice.ok
    requires states[i].calls[c].kind.FinishToArtifact? && states[i].calls[c].pc.Replaying?
    ensures states[i + 1].calls[c].pc ==
            if states[i].calls[c].pc.locked then Unlocking(ArtifactDone(h)) else Done(ArtifactDone(h))
  {
    RunInv(states, steps, i);
  }
}
