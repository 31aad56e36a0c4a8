/** The filesystem below every state file, and the durable write that all of them go through.

    The model keeps apart what a running process sees and what a power loss may leave behind:
    an inode whose bytes were not synced may hold anything, and a name whose directory entry
    changed since the last directory sync may map to any entry it had since then. */
module DurableFile {
  import opened Common
  import opened Register

  datatype Inode = Inode(bytes: seq<Byte>, synced: bool)

  /** `entries` is the directory a process sees. `older` collects, name by name, the entries
      that were replaced since the last directory sync. */
  datatype Disk = Disk(inodes: map<nat, Inode>, entries: map<string, nat>, older: map<string, set<Option<nat>>>,
                       next: nat) {
    function Entry(name: string): Option<nat> {
      if name in entries then Some(entries[name]) else None
    }

    function Replaced(name: string): set<Option<nat>> {
      if name in older then older[name] else {}
    }

    function MayEntries(name: string): set<Option<nat>> {
      {Entry(name)} + Replaced(name)
    }

    ghost predicate Valid() {
      && (forall i :: i in inodes ==> i < next)
      && (forall name :: name in entries ==> entries[name] in inodes)
      && (forall name, i :: Some(i) in MayEntries(name) ==> i in inodes)
    }

    function Keep(name: string): map<string, set<Option<nat>>> {
      older[name := MayEntries(name)]
    }

    function Create(name: string): Disk {
      Disk(inodes[next := Inode([], false)], entries[name := next], Keep(name), next + 1)
    }

    function Put(i: nat, bytes: seq<Byte>, synced: bool): Disk {
      this.(inodes := inodes[i := Inode(bytes, synced)])
    }

    function Rename(source: string, target: string): Disk
      requires source in entries && source != target
    {
      this.(entries := entries[target := entries[source]] - {source},
            older := Keep(target)[source := MayEntries(source)])
    }

    function Remove(name: string): Disk {
      this.(entries := entries - {name}, older := Keep(name))
    }

    function SyncDirectory(): Disk {
      this.(older := map[])
    }

    /** What a read of `name` returns. */
    function Read(name: string): Option<seq<Byte>> {
      if name in entries && entries[name] in inodes then Some(inodes[entries[name]].bytes) else None
    }

    /** Whether a power loss now may leave `contents` under `name`. */
    ghost predicate MayRecover(name: string, contents: Option<seq<Byte>>) {
      match contents
      case None => None in MayEntries(name)
      case Some(bytes) =>
        exists i :: Some(i) in MayEntries(name) && i in inodes && (inodes[i].synced ==> inodes[i].bytes == bytes)
    }

    /** The register `r` describes the file `name`. */
    ghost predicate Tracks(name: string, r: Register<seq<Byte>>) {
      && Read(name) == r.visible
      && (forall contents :: MayRecover(name, contents) ==> contents in r.possible)
    }
  }

  /** Which system calls of one durable write succeed. A failing write may have stored any
      prefix of the payload. */
  datatype Calls = Calls(mkdir: bool, create: bool, chmod: bool, write: bool, stored: nat, sync: bool, close: bool,
                         rename: bool, unlink: bool, open: bool, syncDirectory: bool, closeDirectory: bool)
  {
    function Outcome(): Outcome {
      if !(mkdir && create && chmod && write && sync && close && rename) then NotPublished
      else if !(open && syncDirectory) then Unsynced
      else Published
    }

    predicate Succeeds() {
      Outcome() == Published && closeDirectory
    }
  }

  const TEMPORARY_PREFIX := ".hec-state-"

  predicate IsTemporary(name: string) {
    TEMPORARY_PREFIX <= name
  }

  /** From `before` to `now` only the names in `touched` and inodes created since then changed. */
  ghost predicate Keeps(before: Disk, now: Disk, touched: set<string>) {
    && now.Valid()
    && before.next <= now.next
    && (forall name :: name !in touched ==>
          now.Entry(name) == before.Entry(name) && now.MayEntries(name) <= before.MayEntries(name))
    && (forall i :: i in before.inodes ==> i in now.inodes && now.inodes[i] == before.inodes[i])
  }

  lemma CreateKeeps(before: Disk, name: string)
    requires before.Valid()
    ensures Keeps(before, before.Create(name), {name})
  {
    var now := before.Create(name);
    forall other, i | Some(i) in now.MayEntries(other) ensures i in now.inodes {
      assert Some(i) in before.MayEntries(other) || i == before.next;
    }
  }

  lemma PutKeeps(before: Disk, now: Disk, touched: set<string>, i: nat, bytes: seq<Byte>, synced: bool)
    requires before.Valid() && Keeps(before, now, touched)
    requires before.next <= i && i in now.inodes
    ensures Keeps(before, now.Put(i, bytes, synced), touched)
  {
    var after := now.Put(i, bytes, synced);
    assert forall name :: after.Entry(name) == now.Entry(name) && after.MayEntries(name) == now.MayEntries(name);
  }

  lemma RemoveKeeps(before: Disk, now: Disk, name: string, touched: set<string>)
    requires before.Valid() && Keeps(before, now, touched) && name in touched
    ensures Keeps(before, now.Remove(name), touched)
  {
    var after := now.Remove(name);
    forall other, i | Some(i) in after.MayEntries(other) ensures i in after.inodes {
      assert Some(i) in now.MayEntries(other);
    }
  }

  /** A file outside the touched names reads the same and may recover to nothing new. */
  lemma KeepsFiles(before: Disk, now: Disk, touched: set<string>, name: string, r: Register<seq<Byte>>)
    requires before.Valid() && Keeps(before, now, touched) && name !in touched
    requires before.Tracks(name, r)
    ensures now.Tracks(name, r)
  {
    assert now.Read(name) == before.Read(name) by {
      assert now.Entry(name) == before.Entry(name);
      if name in before.entries { assert now.Entry(name) == Some(before.entries[name]); }
    }
    forall contents | now.MayRecover(name, contents) ensures before.MayRecover(name, contents) {
      if contents.Some? {
        var i :| Some(i) in now.MayEntries(name) && i in now.inodes
            && (now.inodes[i].synced ==> now.inodes[i].bytes == contents.value);
        assert Some(i) in before.MayEntries(name);
      }
    }
  }

  /** A power loss: every name comes back with one of the entries it may have, every synced
      inode with its bytes, every other inode with some bytes. */
  ghost predicate Recovers(before: Disk, now: Disk) {
    && now.Valid() && now.older == map[]
    && (forall name :: now.Entry(name) in before.MayEntries(name))
    && (forall i :: i in before.inodes ==>
          i in now.inodes && now.inodes[i].synced
              && (before.inodes[i].synced ==> now.inodes[i].bytes == before.inodes[i].bytes))
  }

  /** A power loss on the disk is a power loss of the register that tracks the file. */
  lemma RecoveryTracks(before: Disk, now: Disk, name: string, r: Register<seq<Byte>>)
    requires before.Valid() && Recovers(before, now) && before.Tracks(name, r)
    ensures Possible(r, PowerLoss(now.Read(name)))
    ensures now.Tracks(name, After(r, PowerLoss(now.Read(name))))
  {
    var entry := now.Entry(name);
    assert entry in before.MayEntries(name);
    assert now.MayEntries(name) == {entry};
    if entry.Some? {
      assert before.MayRecover(name, now.Read(name));
    }
  }

  /** A moment in a durable write: all of the payload is in place, or none of it. */
  ghost predicate Intermediate(now: Disk, path: string, payload: seq<Byte>, r: Register<seq<Byte>>) {
    exists outcome: Outcome :: now.Tracks(path, r.Write(payload, outcome))
  }

  /** The rename makes the payload visible at once; until the directory is synced the old
      entry may still come back. */
  lemma RenamePublishes(disk: Disk, temporary: string, path: string, r: Register<seq<Byte>>)
    requires disk.Valid() && disk.Tracks(path, r)
    requires temporary in disk.entries && temporary != path
    requires disk.inodes[disk.entries[temporary]].synced
    ensures Keeps(disk, disk.Rename(temporary, path), {temporary, path})
    ensures disk.Rename(temporary, path).Tracks(path, r.Write(disk.inodes[disk.entries[temporary]].bytes, Unsynced))
  {
    var i := disk.entries[temporary];
    assert disk.Entry(temporary) == Some(i);
    var after := disk.Rename(temporary, path);
    assert after.Entry(path) == Some(i);
    assert after.MayEntries(path) == disk.MayEntries(path) + {Some(i)};
    forall name, j | Some(j) in after.MayEntries(name) ensures j in after.inodes {
      assert Some(j) in disk.MayEntries(name) || j == i;
    }
    forall contents | after.MayRecover(path, contents)
      ensures contents in r.Write(disk.inodes[i].bytes, Unsynced).possible
    {
      if contents != Some(disk.inodes[i].bytes) {
        assert disk.MayRecover(path, contents);
      }
    }
  }

  lemma SyncDirectoryKeeps(before: Disk, now: Disk, touched: set<string>)
    requires before.Valid() && Keeps(before, now, touched)
    ensures Keeps(before, now.SyncDirectory(), touched)
  {
    var after := now.SyncDirectory();
    forall name, i | Some(i) in after.MayEntries(name) ensures i in after.inodes {
      assert Some(i) in now.MayEntries(name);
    }
  }

  lemma SyncDirectorySettles(disk: Disk, path: string)
    requires disk.Valid() && path in disk.entries && disk.inodes[disk.entries[path]].synced
    ensures disk.SyncDirectory().Tracks(path, Register(disk.Read(path), {disk.Read(path)}))
  {
    assert disk.Entry(path) == Some(disk.entries[path]);
    var after := disk.SyncDirectory();
    assert after.MayEntries(path) == {disk.Entry(path)};
  }

  class FileSystem {
    var disk: Disk

    /** Every state the disk has been in, one entry per system call. */
    ghost var trace: seq<Disk>

    constructor (initial: Disk)
      ensures disk == initial && trace == [initial]
    {
      disk := initial;
      trace := [initial];
    }

    method Change(next: Disk)
      modifies this
      ensures disk == next && trace == old(trace) + [next]
    {
      disk := next;
      trace := trace + [next];
    }

    /** Writes `payload` to a new temporary file, syncs it, renames it over `path` and syncs
        the directory. `r` is whatever was known about `path` before. The returned flag and
        the register after the call depend only on which calls succeed; at every moment in
        between, and so after a power loss at any such moment, the file holds the whole old or
        the whole new contents; and no other file changes. */
    method WriteFileDurable(path: string, payload: seq<Byte>, temporary: string, calls: Calls,
                            ghost r: Register<seq<Byte>>)
        returns (ok: bool)
      requires disk.Valid() && disk.Tracks(path, r)
      requires IsTemporary(temporary) && temporary !in disk.entries && !IsTemporary(path)
      modifies this
      ensures ok == calls.Succeeds()
      ensures ok <==>
              && calls.mkdir && calls.create && calls.chmod && calls.write && calls.sync && calls.close
              && calls.rename && calls.open && calls.syncDirectory && calls.closeDirectory
      ensures ok ==>
                && disk.Read(path) == Some(payload)
                && forall found :: disk.MayRecover(path, found) ==> found == Some(payload)
      ensures disk.Tracks(path, r.Write(payload, calls.Outcome()))
      ensures old(trace) <= trace
      ensures forall k :: |old(trace)| <= k < |trace| ==> Intermediate(trace[k], path, payload, r)
      ensures Keeps(old(disk), disk, {temporary, path})
      ensures temporary in disk.entries ==> calls.mkdir && calls.create && !calls.unlink
    {
      ok := Prepare(payload, temporary, calls);
      forall k | |old(trace)| <= k < |trace| ensures Intermediate(trace[k], path, payload, r) {
        KeepsFiles(old(disk), trace[k], {temporary}, path, r);
        assert trace[k].Tracks(path, r.Write(payload, NotPublished));
      }
      KeepsFiles(old(disk), disk, {temporary}, path, r);
      if ok && calls.rename {
        ok := Publish(path, payload, temporary, calls, r);
      } else {
        if temporary in disk.entries && calls.unlink {
          RemoveKeeps(old(disk), disk, temporary, {temporary});
          Change(disk.Remove(temporary));
          KeepsFiles(old(disk), disk, {temporary}, path, r);
          assert disk.Tracks(path, r.Write(payload, NotPublished));
        }
        ok := false;
      }
    }

    /** The part before the rename: a synced temporary file with the payload. */
    method Prepare(payload: seq<Byte>, temporary: string, calls: Calls) returns (ok: bool)
      requires disk.Valid() && temporary !in disk.entries
      modifies this
      ensures Keeps(old(disk), disk, {temporary})
      ensures ok == (calls.mkdir && calls.create && calls.chmod && calls.write && calls.sync && calls.close)
      ensures ok ==> temporary in disk.entries && disk.inodes[disk.entries[temporary]] == Inode(payload, true)
      ensures temporary in disk.entries ==> calls.mkdir && calls.create
      ensures old(trace) <= trace
      ensures forall k :: |old(trace)| <= k < |trace| ==> Keeps(old(disk), trace[k], {temporary})
    {
      if !(calls.mkdir && calls.create) { return false; }
      ghost var before := disk;
      var i := disk.next;
      CreateKeeps(disk, temporary);
      Change(disk.Create(temporary));
      assert disk.Entry(temporary) == Some(i);
      if !calls.chmod { return false; }
      var stored := if calls.write || |payload| <= calls.stored then payload else payload[..calls.stored];
      PutKeeps(before, disk, {temporary}, i, stored, false);
      Change(disk.Put(i, stored, false));
      if !(calls.write && calls.sync) { return false; }
      PutKeeps(before, disk, {temporary}, i, payload, true);
      Change(disk.Put(i, payload, true));
      return calls.close;
    }

    /** The part from the rename on. */
    method Publish(path: string, payload: seq<Byte>, temporary: string, calls: Calls, ghost r: Register<seq<Byte>>)
        returns (ok: bool)
      requires disk.Valid() && disk.Tracks(path, r) && path != temporary
      requires temporary in disk.entries && disk.inodes[disk.entries[temporary]] == Inode(payload, true)
      modifies this
      ensures ok == (calls.open && calls.syncDirectory && calls.closeDirectory)
      ensures disk.Tracks(path, r.Write(payload, if calls.open && calls.syncDirectory then Published else Unsynced))
      ensures Keeps(old(disk), disk, {temporary, path})
      ensures temporary !in disk.entries
      ensures old(trace) <= trace
      ensures forall k :: |old(trace)| <= k < |trace| ==> Intermediate(trace[k], path, payload, r)
    {
      RenamePublishes(disk, temporary, path, r);
      Change(disk.Rename(temporary, path));
      assert disk.Tracks(path, r.Write(payload, Unsynced));
      if !calls.open { return false; }
      if calls.syncDirectory {
        SyncDirectorySettles(disk, path);
        SyncDirectoryKeeps(old(disk), disk, {temporary, path});
        Change(disk.SyncDirectory());
        assert disk.Tracks(path, r.Write(payload, Published));
      }
      return calls.syncDirectory && calls.closeDirectory;
    }
  }
}
