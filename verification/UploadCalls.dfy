/** The upload calls as the program runs them. Each call is a stretch of a run of the protocol
    in `Upload`: opening the data file, then, under the lock, everything else. Between the two
    halves of a call other calls may have done anything to the upload. */
module UploadCalls {
  import opened Common
  import opened Upload

  /** Which system calls of one upload call succeed, and what they find. */
  datatype Environment = Environment(
    open: bool, check: bool, stored: nat, write: bool, record: bool,
    exists': bool, move: bool, copies: bool, copy: bool, publish: bool, unreadable: set<Handle>, dataFirst: bool)
  {
    function Choose(ok: bool): Choice {
      Choice(ok, stored, exists', copies, dataFirst)
    }

    /** What one write of `payload` puts into the file. */
    function Stored(payload: Bytes): Bytes {
      if stored < |payload| then payload[..stored] else payload
    }
  }

  /** One call as a client makes it, and what happens to it. */
  datatype UploadCall = UploadCall(kind: Kind, env: Environment)

  /** Everything about an upload that is on disk. */
  datatype Store = Store(
    data: Bytes, dataLinked: bool, metadataLinked: bool, currentBytes: nat,
    destination: Destination, artifacts: map<Handle, Artifact>, nextHandle: Handle)
  {
    function Removed(): Store {
      this.(dataLinked := false, metadataLinked := false)
    }
  }

  class UploadSession {
    const expectedSize: Option<nat>
    const expectedDigest: Option<Bytes>
    var data: Bytes
    var dataLinked: bool
    var metadataLinked: bool
    var currentBytes: nat
    var destination: Destination
    var artifacts: map<Handle, Artifact>
    var nextHandle: Handle

    /** The protocol run this upload has been through. */
    ghost var states: seq<State>
    ghost var steps: seq<Step>

    ghost function Now(): State
      reads this
      requires |states| > 0
    {
      states[|states| - 1]
    }

    function Stored(): Store
      reads this
    {
      Store(data, dataLinked, metadataLinked, currentBytes, destination, artifacts, nextHandle)
    }

    /** The last state of the run is what is on disk. */
    ghost predicate Mirrors()
      reads this
    {
      && Run(states, steps)
      && var s := Now();
         && s.expectedSize == expectedSize && s.expectedDigest == expectedDigest
         && s.data == data && s.dataLinked == dataLinked && s.metadataLinked == metadataLinked
         && s.currentBytes == currentBytes && s.destination == destination
         && s.artifacts == artifacts && s.nextHandle == nextHandle
    }

    /** Nobody holds the lock. Calls that have opened the file may be waiting for it. */
    ghost predicate Valid()
      reads this
    {
      Mirrors() && Now().lock.None?
    }

    /** Call `c` is at program point `pc` and holds the lock if it should there. */
    ghost predicate Running(c: nat, kind: Kind, pc: Pc)
      reads this
    {
      && Mirrors() && c in Now().calls && Now().calls[c] == Call(kind, pc)
      && Now().lock == if pc.HoldsLock() then Some(c) else None
    }

    constructor (expectedSize: Option<nat>, expectedDigest: Option<Bytes>)
      ensures Valid() && this.expectedSize == expectedSize && this.expectedDigest == expectedDigest
      ensures Stored() == Store([], true, true, 0, Absent, map[], 0)
    {
      this.expectedSize, this.expectedDigest := expectedSize, expectedDigest;
      data, dataLinked, metadataLinked, currentBytes := [], true, true, 0;
      destination, artifacts, nextHandle := Absent, map[], 0;
      states := [State(expectedSize, expectedDigest, [], true, true, 0, None, map[], Absent, map[], 0, [], [],
                       Safe([], {}))];
      steps := [];
    }

    ghost method Take(step: Step)
      requires Run(states, steps) && Enabled(Now(), step)
      modifies this`states, this`steps
      ensures states == old(states) + [Apply(old(Now()), step)] && steps == old(steps) + [step]
      ensures Run(states, steps)
    {
      states, steps := states + [Apply(Now(), step)], steps + [step];
    }

    /** Arrives and opens the data file. */
    method Open(ghost c: nat, kind: Kind, env: Environment) returns (found: bool)
      requires Valid() && c !in Now().calls
      modifies this`states, this`steps
      ensures old(states) <= states && old(steps) <= steps
      ensures found == dataLinked
      ensures Running(c, kind,
                      if !dataLinked then if kind.FinishToArtifact? then Replaying(false) else Done(NotFound)
                      else if env.open then Locking else Done(Failed))
    {
      Begin(c, kind);
      Take(Work(c, env.Choose(env.open)));
      found := dataLinked;
    }

    ghost method Begin(c: nat, kind: Kind)
      requires Valid() && c !in Now().calls
      modifies this`states, this`steps
      ensures old(states) <= states && old(steps) <= steps && Running(c, kind, Opening)
    {
      Take(Arrive(c, kind));
    }

    predicate Verified()
      reads this
    {
      Verifies(expectedSize, expectedDigest, data)
    }

    /** Takes the lock and looks at the metadata; `next` is where that leads. */
    method Lock(ghost c: nat, kind: Kind, env: Environment) returns (next: Pc)
      requires Running(c, kind, Locking)
      modifies this`states, this`steps
      ensures old(states) <= states && old(steps) <= steps
      ensures next == AfterCheck(metadataLinked, |data|, Verified(), kind, env.check) && Running(c, kind, next)
    {
      Take(Work(c, env.Choose(true)));
      Take(Work(c, env.Choose(env.check)));
      next := AfterCheck(metadataLinked, |data|, Verified(), kind, env.check);
    }

    method Unlock(ghost c: nat, kind: Kind, env: Environment, reply: Reply)
      requires Running(c, kind, Unlocking(reply))
      modifies this`states, this`steps
      ensures old(states) <= states && old(steps) <= steps
      ensures Running(c, kind, Done(reply))
    {
      Take(Work(c, env.Choose(true)));
    }

    /** `upload.chunk` once the file is open. */
    method ChunkLocked(ghost c: nat, offset: nat, payload: Bytes, env: Environment) returns (reply: Reply)
      requires Running(c, Chunk(offset, payload), Locking)
      modifies this
      ensures Running(c, Chunk(offset, payload), Done(reply)) && old(states) <= states && old(steps) <= steps
      ensures ChunkEffect(offset, payload, env, old(Stored()), Stored(), reply)
    {
      hide Running, WriteAt;
      var next := Lock(c, Chunk(offset, payload), env);
      if next.Writing? {
        reply := WriteChunk(c, offset, payload, env);
      } else {
        reply := next.reply;
      }
      Unlock(c, Chunk(offset, payload), env, reply);
    }

    /** Writes at the offset and, if all of the payload was stored, records the new size. */
    method WriteChunk(ghost c: nat, offset: nat, payload: Bytes, env: Environment) returns (reply: Reply)
      requires Running(c, Chunk(offset, payload), Writing) && offset <= |data|
      modifies this`data, this`currentBytes, this`states, this`steps
      ensures Running(c, Chunk(offset, payload), Unlocking(reply)) && old(states) <= states && old(steps) <= steps
      ensures data == WriteAt(old(data), offset, env.Stored(payload))
      ensures if env.stored < |payload| || !env.write || !env.record then reply == Failed
                && currentBytes == old(currentBytes)
              else reply == ChunkDone(offset + |payload|, |data|) && currentBytes == |data|
    {
      hide Running, WriteAt;
      var whole := Write(c, offset, payload, env);
      if !whole { return Failed; }
      reply := RecordSize(c, offset, payload, env);
    }

    method Write(ghost c: nat, offset: nat, payload: Bytes, env: Environment) returns (whole: bool)
      requires Running(c, Chunk(offset, payload), Writing) && offset <= |data|
      modifies this`data, this`states, this`steps
      ensures old(states) <= states && old(steps) <= steps
      ensures whole == (env.stored >= |payload| && env.write) && data == WriteAt(old(data), offset, env.Stored(payload))
      ensures Running(c, Chunk(offset, payload), if whole then Recording(|payload|) else Unlocking(Failed))
    {
      hide WriteAt;
      data := WriteAt(data, offset, env.Stored(payload));
      Take(Work(c, env.Choose(env.write)));
      whole := env.stored >= |payload| && env.write;
    }

    method RecordSize(ghost c: nat, offset: nat, payload: Bytes, env: Environment) returns (reply: Reply)
      requires Running(c, Chunk(offset, payload), Recording(|payload|))
      modifies this`currentBytes, this`states, this`steps
      ensures old(states) <= states && old(steps) <= steps
      ensures Running(c, Chunk(offset, payload), Unlocking(reply))
      ensures reply == if env.record then ChunkDone(offset + |payload|, |data|) else Failed
      ensures currentBytes == if env.record then |data| else old(currentBytes)
    {
      Take(Work(c, env.Choose(env.record)));
      if !env.record { return Failed; }
      currentBytes := |data|;
      reply := ChunkDone(offset + |payload|, |data|);
    }

    method UploadChunk(ghost c: nat, offset: nat, payload: Bytes, env: Environment) returns (reply: Reply)
      requires Valid() && c !in Now().calls
      modifies this
      ensures Valid() && Running(c, Chunk(offset, payload), Done(reply)) && old(states) <= states && old(steps) <= steps
      ensures if !old(dataLinked) then reply == NotFound && Stored() == old(Stored())
              else if !env.open then reply == Failed && Stored() == old(Stored())
              else ChunkEffect(offset, payload, env, old(Stored()), Stored(), reply)
    {
      hide Run, ChunkEffect;
      var found := Open(c, Chunk(offset, payload), env);
      if !found { return NotFound; }
      if !env.open { return Failed; }
      reply := ChunkLocked(c, offset, payload, env);
    }

    /** Moves the data to its destination: the inode itself, or a copy on another filesystem. */
    method MoveToDestination(ghost c: nat, env: Environment) returns (reply: Reply)
      requires Running(c, FinishToDestination, Moving)
      modifies this`destination, this`dataLinked, this`states, this`steps
      ensures old(states) <= states && old(steps) <= steps
      ensures if env.exists' then reply == DestinationExists && destination == old(destination)
                && dataLinked == old(dataLinked)
              else if !env.move then reply == Failed && destination == old(destination) && dataLinked == old(dataLinked)
              else reply == Moved(|data|) && destination == (if env.copies then Copied(data) else Renamed)
      ensures Running(c, FinishToDestination, if reply.Moved? then Removing(reply) else Unlocking(reply))
    {
      Take(Work(c, env.Choose(env.move)));
      if env.exists' { return DestinationExists; }
      if !env.move { return Failed; }
      if env.copies {
        destination := Copied(data);
      } else {
        destination, dataLinked := Renamed, false;
      }
      reply := Moved(|data|);
    }

    /** Copies the data into a new artifact and publishes that under a fresh handle. */
    method CreateArtifact(ghost c: nat, env: Environment) returns (reply: Reply)
      requires Running(c, FinishToArtifact, Copying)
      modifies this`artifacts, this`nextHandle, this`states, this`steps
      ensures old(states) <= states && old(steps) <= steps
      ensures if env.copy && env.publish then
                reply == ArtifactDone(old(nextHandle)) && nextHandle == old(nextHandle) + 1
                && artifacts == old(artifacts)[old(nextHandle) := Artifact(data, true)]
              else reply == Failed && artifacts == old(artifacts) && nextHandle == old(nextHandle)
      ensures Running(c, FinishToArtifact, if reply.ArtifactDone? then Removing(reply) else Unlocking(reply))
    {
      Take(Work(c, env.Choose(env.copy)));
      if !env.copy { return Failed; }
      Take(Work(c, env.Choose(env.publish)));
      if !env.publish { return Failed; }
      reply := ArtifactDone(nextHandle);
      artifacts, nextHandle := artifacts[nextHandle := Artifact(data, true)], nextHandle + 1;
    }

    /** Unlinks what is left in the upload directory. */
    method RemoveAll(ghost c: nat, kind: Kind, env: Environment, reply: Reply)
      requires Running(c, kind, Removing(reply))
      modifies this`dataLinked, this`metadataLinked, this`states, this`steps
      ensures old(states) <= states && old(steps) <= steps
      ensures Running(c, kind, Unlocking(reply)) && !dataLinked && !metadataLinked
    {
      while dataLinked || metadataLinked
        invariant Running(c, kind, Removing(reply)) && old(states) <= states && old(steps) <= steps
        decreases if dataLinked then 1 else 0, if metadataLinked then 1 else 0
      {
        hide Running;
        UnlinkNext(c, kind, env, reply);
      }
      Take(Work(c, env.Choose(true)));
    }

    method UnlinkNext(ghost c: nat, kind: Kind, env: Environment, reply: Reply)
      requires Running(c, kind, Removing(reply)) && (dataLinked || metadataLinked)
      modifies this`dataLinked, this`metadataLinked, this`states, this`steps
      ensures old(states) <= states && old(steps) <= steps && Running(c, kind, Removing(reply))
      ensures var first := old(dataLinked) && (env.dataFirst || !old(metadataLinked));
              dataLinked == (old(dataLinked) && !first) && metadataLinked == (old(metadataLinked) && first)
    {
      Take(Work(c, env.Choose(true)));
      if dataLinked && (env.dataFirst || !metadataLinked) { dataLinked := false; } else { metadataLinked := false; }
    }

    /** Looks through the artifacts, in any order, for one made from this upload. One whose
        metadata cannot be read ends the search. */
    method FindArtifact(unreadable: set<Handle>) returns (found: Result<Option<Handle>>)
      ensures match found
              case Err => exists h :: h in artifacts && h in unreadable
              case Ok(Some(h)) => h in artifacts && artifacts[h].mine && h !in unreadable
              case Ok(None) => forall h :: h in artifacts ==> !artifacts[h].mine && h !in unreadable
    {
      var entries := artifacts.Keys;
      while entries != {}
        invariant entries <= artifacts.Keys
        invariant forall h :: h in artifacts.Keys - entries ==> !artifacts[h].mine && h !in unreadable
        decreases |entries|
      {
        var h :| h in entries;
        if h in unreadable { return Err; }
        if artifacts[h].mine { return Ok(Some(h)); }
        entries := entries - {h};
      }
      found := Ok(None);
    }

    /** Answers a finish that comes too late with the artifact it made, if that is still there. */
    method ReplayCompletion(ghost c: nat, ghost locked: bool, otherwise: Reply, env: Environment) returns (reply: Reply)
      requires Running(c, FinishToArtifact, Replaying(locked)) && otherwise == if locked then Failed else NotFound
      modifies this`states, this`steps
      ensures old(states) <= states && old(steps) <= steps
      ensures ReplayEffect(env, Stored(), otherwise, reply)
      ensures Running(c, FinishToArtifact, if locked then Unlocking(reply) else Done(reply))
    {
      var found := FindArtifact(env.unreadable);
      reply := if found.Err? then Failed else if found.value.Some? then ArtifactDone(found.value.value) else otherwise;
      ReplayScan(c, locked, otherwise, env, found, reply);
    }

    ghost method ReplayScan(c: nat, locked: bool, otherwise: Reply, env: Environment, found: Result<Option<Handle>>,
                            reply: Reply)
      requires Running(c, FinishToArtifact, Replaying(locked)) && otherwise == if locked then Failed else NotFound
      requires reply == if found.Err? then Failed else if found.value.Some? then ArtifactDone(found.value.value)
                else otherwise
      requires found.Ok? ==>
                if found.value.Some? then IsMine(Now(), found.value.value) else forall h :: !IsMine(Now(), h)
      modifies this`states, this`steps
      ensures old(states) <= states && old(steps) <= steps
      ensures Running(c, FinishToArtifact, if locked then Unlocking(reply) else Done(reply))
    {
      hide Inv, Scan;
      RunInv(states, steps, |steps|);
      ScanFinds(Now(), found, env.Choose(found.Ok?), otherwise);
      Take(Work(c, env.Choose(found.Ok?)));
    }

    method FinishAsFile(ghost c: nat, env: Environment) returns (reply: Reply)
      requires Running(c, FinishToDestination, Moving)
      modifies this`destination, this`dataLinked, this`metadataLinked, this`states, this`steps
      ensures old(states) <= states && old(steps) <= steps && Running(c, FinishToDestination, Unlocking(reply))
      ensures FileEffect(env, old(Stored()), Stored(), reply) && reply != VerificationFailed
    {
      hide Running;
      reply := MoveToDestination(c, env);
      if reply.Moved? { RemoveAll(c, FinishToDestination, env, reply); }
    }

    method FinishAsArtifact(ghost c: nat, env: Environment) returns (reply: Reply)
      requires Running(c, FinishToArtifact, Copying)
      modifies this`artifacts, this`nextHandle, this`dataLinked, this`metadataLinked, this`states, this`steps
      ensures old(states) <= states && old(steps) <= steps && Running(c, FinishToArtifact, Unlocking(reply))
      ensures ArtifactEffect(env, old(Stored()), Stored(), reply) && reply != VerificationFailed
    {
      hide Running;
      reply := CreateArtifact(c, env);
      if reply.ArtifactDone? { RemoveAll(c, FinishToArtifact, env, reply); }
    }

    /** `upload.finish` to a destination or as an artifact, once the file is open. */
    method FinishLocked(ghost c: nat, kind: Kind, env: Environment) returns (reply: Reply)
      requires Running(c, kind, Locking) && (kind.FinishToDestination? || kind.FinishToArtifact?)
      modifies this
      ensures Running(c, kind, Done(reply)) && old(states) <= states && old(steps) <= steps
      ensures FinishEffect(kind, old(Verified()), env, old(Stored()), Stored(), reply)
      ensures old(metadataLinked) && env.check ==>
                (reply == VerificationFailed <==>
                   (expectedSize.Some? && |old(data)| != expectedSize.value)
                   || (expectedDigest.Some? && old(data) != expectedDigest.value))
    {
      hide Running, FileEffect, ArtifactEffect;
      var next := Lock(c, kind, env);
      if next.Unlocking? {
        reply := next.reply;
      } else if next.Replaying? {
        reply := ReplayCompletion(c, true, Failed, env);
      } else if next.Moving? {
        reply := FinishAsFile(c, env);
      } else {
        reply := FinishAsArtifact(c, env);
      }
      Unlock(c, kind, env, reply);
    }

    method UploadFinish(ghost c: nat, kind: Kind, env: Environment) returns (reply: Reply)
      requires Valid() && c !in Now().calls && (kind.FinishToDestination? || kind.FinishToArtifact?)
      modifies this
      ensures Valid() && Running(c, kind, Done(reply)) && old(states) <= states && old(steps) <= steps
      ensures if !old(dataLinked) then
                Stored() == old(Stored())
                    && if kind.FinishToArtifact? then ReplayEffect(env, Stored(), NotFound, reply)
                        else reply == NotFound
              else if !env.open then reply == Failed && Stored() == old(Stored())
              else FinishEffect(kind, old(Verified()), env, old(Stored()), Stored(), reply)
      ensures old(dataLinked && metadataLinked) && env.open && env.check ==>
                (reply == VerificationFailed <==>
                   (expectedSize.Some? && |old(data)| != expectedSize.value)
                   || (expectedDigest.Some? && old(data) != expectedDigest.value))
    {
      hide Run, FinishEffect, ReplayEffect, Verifies;
      var found := Open(c, kind, env);
      if !found {
        if kind.FinishToArtifact? { reply := ReplayCompletion(c, false, NotFound, env); } else { reply := NotFound; }
        return;
      }
      if !env.open { return Failed; }
      reply := FinishLocked(c, kind, env);
    }

    ghost method BeginAbort(c: nat, env: Environment)
      requires Running(c, Abort, Aborting)
      modifies this`states, this`steps
      ensures old(states) <= states && old(steps) <= steps
      ensures Running(c, Abort, Removing(Aborted))
    {
      Take(Work(c, env.Choose(true)));
    }

    method UploadAbort(ghost c: nat, env: Environment) returns (reply: Reply)
      requires Valid() && c !in Now().calls
      modifies this
      ensures Valid() && Running(c, Abort, Done(reply)) && old(states) <= states && old(steps) <= steps
      ensures if !old(dataLinked) then reply == NotFound && Stored() == old(Stored())
              else if !env.open || !old(metadataLinked) || !env.check then reply == Failed && Stored() == old(Stored())
              else reply == Aborted && Stored() == old(Stored()).Removed()
    {
      hide Run;
      var found := Open(c, Abort, env);
      if !found { return NotFound; }
      if !env.open { return Failed; }
      var next := Lock(c, Abort, env);
      if next.Aborting? {
        BeginAbort(c, env);
        RemoveAll(c, Abort, env, Aborted);
        reply := Aborted;
      } else {
        reply := next.reply;
      }
      Unlock(c, Abort, env, reply);
    }

    /** One call of any kind, whole. */
    method Perform(ghost c: nat, call: UploadCall) returns (reply: Reply)
      requires Valid() && c !in Now().calls
      modifies this
      ensures Valid() && Running(c, call.kind, Done(reply)) && old(states) <= states && old(steps) <= steps
      ensures CallEffect(call, expectedSize, expectedDigest, old(Stored()), Stored(), reply)
    {
      hide Run, ChunkEffect, FinishEffect, ReplayEffect;
      match call.kind {
        case Chunk(offset, payload) => reply := UploadChunk(c, offset, payload, call.env);
        case Abort => reply := UploadAbort(c, call.env);
        case _ => reply := UploadFinish(c, call.kind, call.env);
      }
    }

    /** Any script of calls, one after another, has at most one effect: two calls that both
        succeed in consuming the upload are finishes that give one and the same artifact. And
        where all chunks agree with one payload whose size was announced, everything the upload
        was made into holds exactly that payload. */
    method PerformAll(script: seq<UploadCall>, ghost whole: Bytes) returns (replies: seq<Reply>)
      requires Valid()
      modifies this
      ensures Valid() && old(states) <= states && |replies| == |script|
      ensures forall bytes :: IsMadeInto(Stored(), bytes) ==>
                && (expectedSize.Some? ==> |bytes| == expectedSize.value)
                && (expectedDigest.Some? ==> bytes == expectedDigest.value)
      ensures forall i, j :: 0 <= i < j < |script| && Consumes(replies[i]) && Consumes(replies[j]) ==>
                replies[i].ArtifactDone? && replies[j] == replies[i]
      ensures ScriptAgrees(script, whole) && expectedSize == Some(|whole|)
                && old(data <= whole && !Consumed(Stored())) ==>
                Intact(Stored(), whole, replies)
    {
      replies := [];
      ghost var callers: seq<nat> := [];
      ghost var sized := ScriptAgrees(script, whole) && expectedSize == Some(|whole|) && data <= whole
          && !Consumed(Stored());
      for k := 0 to |script|
        invariant Valid() && old(states) <= states && |replies| == k
        invariant AllReturned(Now(), callers, replies)
        invariant sized ==> Intact(Stored(), whole, replies)
      {
        hide Run, CallEffect, Intact, AllReturned, Consumed;
        Links();
        ghost var before, n, c := Stored(), |states|, Above(Now().calls.Keys);
        var reply := Perform(c, script[k]);
        AllStayReturned(states, steps, n - 1, |states| - 1, callers, replies, c, reply);
        if sized { EffectKeeps(script[k], expectedSize, expectedDigest, before, Stored(), reply, whole, replies); }
        callers, replies := callers + [c], replies + [reply];
      }
      hide Run, CallEffect, Intact, Consumed, IsMadeInto;
      AllAnnounced();
      OneConsumer(callers, replies);
    }

    /** Whatever calls it has been through, what the upload was made into is what was announced. */
    lemma Announced(bytes: Bytes)
      requires Valid() && IsMadeInto(Stored(), bytes)
      ensures expectedSize.Some? ==> |bytes| == expectedSize.value
      ensures expectedDigest.Some? ==> bytes == expectedDigest.value
    {
      KeepsAnnouncement(states, steps, |steps|);
      PublishedAsAnnounced(states, steps, |steps|, bytes);
    }

    lemma AllAnnounced()
      requires Valid()
      ensures forall bytes :: IsMadeInto(Stored(), bytes) ==>
                && (expectedSize.Some? ==> |bytes| == expectedSize.value)
                && (expectedDigest.Some? ==> bytes == expectedDigest.value)
    {
      forall bytes | IsMadeInto(Stored(), bytes)
        ensures expectedSize.Some? ==> |bytes| == expectedSize.value
        ensures expectedDigest.Some? ==> bytes == expectedDigest.value
      {
        Announced(bytes);
      }
    }

    lemma OneConsumer(callers: seq<nat>, replies: seq<Reply>)
      requires Valid() && AllReturned(Now(), callers, replies)
      ensures forall i, j :: 0 <= i < j < |replies| && Consumes(replies[i]) && Consumes(replies[j]) ==>
                replies[i].ArtifactDone? && replies[j] == replies[i]
    {
      forall i, j | 0 <= i < j < |replies| && Consumes(replies[i]) && Consumes(replies[j])
        ensures replies[i].ArtifactDone? && replies[j] == replies[i]
      {
        SingleConsumption(states, steps, |steps|, callers[i], callers[j]);
      }
    }

    /** An upload that was made into something has lost its data file. */
    lemma Links()
      requires Valid()
      ensures Consumed(Stored()) ==> !dataLinked && !metadataLinked
    {
      RunInv(states, steps, |steps|);
      assert forall h :: h in artifacts && artifacts[h].mine ==> IsMine(Now(), h);
    }
  }

  /** What a chunk does to an upload once its file is open: the reply, the bytes and the count. */
  predicate ChunkEffect(offset: nat, payload: Bytes, env: Environment, before: Store, after: Store, reply: Reply) {
    if !before.metadataLinked || !env.check then
      reply == Failed && after == before
    else if offset > |before.data| then
      reply == InvalidOffset && after == before
    else if env.stored < |payload| || !env.write || !env.record then
      reply == Failed && after == before.(data := WriteAt(before.data, offset, env.Stored(payload)))
    else
      var written := WriteAt(before.data, offset, payload);
      reply == ChunkDone(offset + |payload|, |written|) && after == before.(data := written, currentBytes := |written|)
  }

  /** Any artifact a search finds is the one the protocol finds: there is only one. */
  lemma ScanFinds(s: State, found: Result<Option<Handle>>, choice: Choice, otherwise: Reply)
    requires Inv(s) && choice.ok == found.Ok?
    requires found.Ok? ==> if found.value.Some? then IsMine(s, found.value.value) else forall h :: !IsMine(s, h)
    ensures Scan(s, choice, otherwise) ==
            if found.Err? then Failed else if found.value.Some? then ArtifactDone(found.value.value) else otherwise
  {
  }

  /** The answer to a finish that comes too late: an artifact of this upload, a failure if some
      artifact cannot be read, or `otherwise` if neither is there. */
  predicate ReplayEffect(env: Environment, store: Store, otherwise: Reply, reply: Reply) {
    var unreadable := exists h :: h in store.artifacts && h in env.unreadable;
    var mine := exists h :: h in store.artifacts && store.artifacts[h].mine;
    match reply
    case ArtifactDone(h) => h in store.artifacts && store.artifacts[h].mine && h !in env.unreadable
    case Failed => unreadable || (!mine && otherwise == Failed)
    case _ => reply == otherwise && !unreadable && !mine
  }

  /** What a finish does to an upload once its file is open. */
  predicate FinishEffect(kind: Kind, verified: bool, env: Environment, before: Store, after: Store, reply: Reply) {
    if !before.metadataLinked then
      after == before && if kind.FinishToArtifact? then ReplayEffect(env, before, Failed, reply) else reply == Failed
    else if !env.check then
      reply == Failed && after == before
    else if !verified then
      reply == VerificationFailed && after == before
    else if kind.FinishToDestination? then
      FileEffect(env, before, after, reply)
    else
      ArtifactEffect(env, before, after, reply)
  }

  predicate FileEffect(env: Environment, before: Store, after: Store, reply: Reply) {
    if env.exists' then
      reply == DestinationExists && after == before
    else if !env.move then
      reply == Failed && after == before
    else
      reply == Moved(|before.data|)
      && after == before.Removed().(destination := if env.copies then Copied(before.data) else Renamed)
  }

  predicate ArtifactEffect(env: Environment, before: Store, after: Store, reply: Reply) {
    if env.copy && env.publish then
      reply == ArtifactDone(before.nextHandle) && after == before.Removed().(
        artifacts := before.artifacts[before.nextHandle := Artifact(before.data, true)],
        nextHandle := before.nextHandle + 1)
    else
      reply == Failed && after == before
  }

  /** A finish as an artifact whose reply was lost: the retry finds the data gone and gives the
      same handle, as long as the artifact is still there. */
  lemma RetryFindsTheArtifact(verified: bool, env: Environment, before: Store, after: Store, h: Handle,
                              envRetry: Environment, later: Store, reply: Reply)
    requires before.dataLinked && before.metadataLinked
    requires forall k :: k in before.artifacts ==> !before.artifacts[k].mine
    requires FinishEffect(FinishToArtifact, verified, env, before, after, ArtifactDone(h))
    requires h in later.artifacts
    requires forall k :: k in later.artifacts && later.artifacts[k].mine ==>
              k in after.artifacts && after.artifacts[k].mine
    requires later.artifacts[h] == after.artifacts[h] && envRetry.unreadable !! later.artifacts.Keys
    requires ReplayEffect(envRetry, later, NotFound, reply)
    ensures reply == ArtifactDone(h) && later.artifacts[h].bytes == before.data && !after.dataLinked
  {
    assert later.artifacts[h].mine;
  }

  // ----- scripts of calls -----

  /** What one whole call does. */
  predicate CallEffect(call: UploadCall, expectedSize: Option<nat>, expectedDigest: Option<Bytes>,
                       before: Store, after: Store, reply: Reply) {
    var env := call.env;
    if !before.dataLinked then
      after == before && if call.kind.FinishToArtifact? then ReplayEffect(env, before, NotFound, reply)
          else reply == NotFound
    else if !env.open then
      reply == Failed && after == before
    else
      match call.kind
      case Chunk(offset, payload) => ChunkEffect(offset, payload, env, before, after, reply)
      case Abort =>
        if !before.metadataLinked || !env.check then reply == Failed && after == before
        else reply == Aborted && after == before.Removed()
      case _ => FinishEffect(call.kind, Verifies(expectedSize, expectedDigest, before.data), env, before, after, reply)
  }

  predicate Consumes(reply: Reply) {
    reply.Moved? || reply.ArtifactDone? || reply.Aborted?
  }

  predicate IsMadeInto(store: Store, bytes: Bytes) {
    || (store.destination.Renamed? && bytes == store.data)
    || (store.destination.Copied? && bytes == store.destination.bytes)
    || (exists h :: h in store.artifacts && store.artifacts[h].mine && store.artifacts[h].bytes == bytes)
  }

  /** The upload was made into something. */
  predicate Consumed(store: Store) {
    !store.destination.Absent? || exists h :: h in store.artifacts && store.artifacts[h].mine
  }

  predicate ScriptAgrees(script: seq<UploadCall>, whole: Bytes) {
    forall call :: call in script ==> Agrees(call.kind, whole)
  }

  /** Everything the upload was made into holds these bytes. */
  predicate Holds(store: Store, whole: Bytes) {
    && (store.destination.Renamed? ==> store.data == whole)
    && (store.destination.Copied? ==> store.destination.bytes == whole)
    && (forall h :: h in store.artifacts && store.artifacts[h].mine ==> store.artifacts[h].bytes == whole)
  }

  /** What a successful finish replied is there to be seen. */
  predicate Shows(store: Store, reply: Reply) {
    && (reply.Moved? ==> !store.destination.Absent?)
    && (reply.ArtifactDone? ==> reply.handle in store.artifacts && store.artifacts[reply.handle].mine)
  }

  predicate Returned(s: State, c: nat, reply: Reply) {
    c in s.calls && s.calls[c].pc == Done(reply)
  }

  lemma {:induction false} StaysReturned(states: seq<State>, steps: seq<Step>, i: nat, j: nat, c: nat)
    requires Run(states, steps) && i <= j < |states| && c in states[i].calls && states[i].calls[c].pc.Done?
    ensures c in states[j].calls && states[j].calls[c] == states[i].calls[c]
  {
    hide Advance;
    if i < j { StaysReturned(states, steps, i, j - 1, c); }
  }

  predicate AllReturned(s: State, callers: seq<nat>, replies: seq<Reply>) {
    && |callers| == |replies| && (forall i :: 0 <= i < |callers| ==> Returned(s, callers[i], replies[i]))
    && (forall i, j :: 0 <= i < j < |callers| ==> callers[i] != callers[j])
  }

  lemma AllStayReturned(states: seq<State>, steps: seq<Step>, i: nat, j: nat, callers: seq<nat>, replies: seq<Reply>,
                        c: nat, reply: Reply)
    requires Run(states, steps) && i <= j < |states| && AllReturned(states[i], callers, replies)
    requires c !in states[i].calls && Returned(states[j], c, reply)
    ensures AllReturned(states[j], callers + [c], replies + [reply])
  {
    forall k | 0 <= k < |callers| ensures Returned(states[j], callers[k], replies[k]) {
      StaysReturned(states, steps, i, j, callers[k]);
    }
  }

  /** No call spoils what an upload was made into, and one that makes it into something does so
      with data that has been verified. */
  lemma EffectHolds(call: UploadCall, expectedSize: Option<nat>, expectedDigest: Option<Bytes>,
                    before: Store, after: Store, reply: Reply, whole: Bytes)
    requires CallEffect(call, expectedSize, expectedDigest, before, after, reply)
    requires Agrees(call.kind, whole) && expectedSize == Some(|whole|)
    requires before.data <= whole && Holds(before, whole) && (Consumed(before) ==> !before.dataLinked)
    ensures after.data <= whole && Holds(after, whole) && Shows(after, reply)
  {
    if call.kind.Chunk? && before.dataLinked && call.kind.offset <= |before.data| {
      var stored := call.env.Stored(call.kind.payload);
      WriteKeepsPrefix(before.data, call.kind.offset, stored, whole);
      WriteKeepsPrefix(before.data, call.kind.offset, call.kind.payload, whole);
    }
    assert |before.data| == |whole| ==> before.data == whole;
  }

  predicate Intact(store: Store, whole: Bytes, replies: seq<Reply>) {
    store.data <= whole && Holds(store, whole) && forall i :: 0 <= i < |replies| ==> Shows(store, replies[i])
  }

  lemma EffectKeeps(call: UploadCall, expectedSize: Option<nat>, expectedDigest: Option<Bytes>,
                    before: Store, after: Store, reply: Reply, whole: Bytes, replies: seq<Reply>)
    requires CallEffect(call, expectedSize, expectedDigest, before, after, reply)
    requires Agrees(call.kind, whole) && expectedSize == Some(|whole|)
    requires Intact(before, whole, replies) && (Consumed(before) ==> !before.dataLinked)
    ensures Intact(after, whole, replies + [reply])
  {
    EffectHolds(call, expectedSize, expectedDigest, before, after, reply, whole);
    forall i | 0 <= i < |replies| ensures Shows(after, replies[i]) {
      EffectShows(call, expectedSize, expectedDigest, before, after, reply, replies[i]);
    }
  }

  lemma EffectShows(call: UploadCall, expectedSize: Option<nat>, expectedDigest: Option<Bytes>,
                    before: Store, after: Store, reply: Reply, earlier: Reply)
    requires CallEffect(call, expectedSize, expectedDigest, before, after, reply) && Shows(before, earlier)
    ensures Shows(after, earlier)
  {
  }

  // ----- calls that go well -----

  /** Every system call of this environment succeeds, and the destination is free. */
  predicate GoesWell(env: Environment, payload: Bytes) {
    && env.open && env.check && env.stored >= |payload| && env.write && env.record
    && !env.exists' && env.move && env.copy && env.publish
  }

  /** A chunk that goes well is taken exactly when it begins within the data or at its end; then
      its payload is in its range, everything else is as it was, and the new size is recorded. */
  lemma GoodChunkIsTaken(offset: nat, payload: Bytes, env: Environment, before: Store, after: Store, reply: Reply)
    requires GoesWell(env, payload) && before.metadataLinked
    requires ChunkEffect(offset, payload, env, before, after, reply)
    ensures offset > |before.data| ==> reply == InvalidOffset && after == before
    ensures offset <= |before.data| ==>
              && reply == ChunkDone(offset + |payload|, |after.data|) && after.currentBytes == |after.data|
              && |after.data| == (if offset + |payload| > |before.data| then offset + |payload| else |before.data|)
              && after.data[offset..offset + |payload|] == payload
              && (forall k :: 0 <= k < |before.data| && !(offset <= k < offset + |payload|) ==>
                    after.data[k] == before.data[k])
              && after == before.(data := after.data, currentBytes := after.currentBytes)
  {
    if offset <= |before.data| {
      WriteAtExactly(before.data, offset, payload);
      forall k | 0 <= k < offset ensures after.data[k] == before.data[k] {
        assert after.data[k] == after.data[..offset][k];
      }
    }
  }

  /** A finish that goes well publishes data of the announced size and digest: under the
      destination, or as an artifact under the next handle. The upload is gone then. */
  lemma GoodFinishPublishes(call: UploadCall, expectedSize: Option<nat>, expectedDigest: Option<Bytes>,
                            before: Store, after: Store, reply: Reply)
    requires GoesWell(call.env, []) && before.dataLinked && before.metadataLinked
    requires call.kind.FinishToDestination? || call.kind.FinishToArtifact?
    requires expectedSize.Some? ==> |before.data| == expectedSize.value
    requires expectedDigest.Some? ==> before.data == expectedDigest.value
    requires CallEffect(call, expectedSize, expectedDigest, before, after, reply)
    ensures IsMadeInto(after, before.data) && !after.dataLinked && !after.metadataLinked
    ensures call.kind.FinishToDestination? ==> reply == Moved(|before.data|) && !after.destination.Absent?
    ensures call.kind.FinishToArtifact? ==>
              && reply == ArtifactDone(before.nextHandle) && before.nextHandle in after.artifacts
              && after.artifacts[before.nextHandle] == Artifact(before.data, true)
  {
    if call.kind.FinishToArtifact? {
      assert after.artifacts[before.nextHandle].mine && after.artifacts[before.nextHandle].bytes == before.data;
    }
  }

  /** An abort that goes well removes the upload and nothing else. */
  lemma GoodAbortRemoves(env: Environment, expectedSize: Option<nat>, expectedDigest: Option<Bytes>,
                         before: Store, after: Store, reply: Reply)
    requires GoesWell(env, []) && before.dataLinked && before.metadataLinked
    requires CallEffect(UploadCall(Abort, env), expectedSize, expectedDigest, before, after, reply)
    ensures reply == Aborted && after == before.(dataLinked := false, metadataLinked := false)
  {
  }

  /** A call that finds no data file changes nothing: a chunk, an abort and a finish to a
      destination find nothing, and a finish as an artifact is answered with an artifact of this
      upload if there is one and every artifact can be read. */
  lemma LateCallsAnswerExactly(call: UploadCall, expectedSize: Option<nat>, expectedDigest: Option<Bytes>,
                               before: Store, after: Store, reply: Reply)
    requires !before.dataLinked && CallEffect(call, expectedSize, expectedDigest, before, after, reply)
    ensures after == before
    ensures !call.kind.FinishToArtifact? ==> reply == NotFound
    ensures call.kind.FinishToArtifact? && call.env.unreadable !! before.artifacts.Keys ==>
              if exists h :: h in before.artifacts && before.artifacts[h].mine then
                reply.ArtifactDone? && reply.handle in before.artifacts && before.artifacts[reply.handle].mine
              else
                reply == NotFound
  {
  }
}
