/** The best-effort pruning of completed keyed mutation records. */
module Prune {
  import P = MutationProtocol
  const MAX_RECORDS := 4096
  const RETENTION := 30 * 24 * 60 * 60 * 1_000_000_000 // nanoseconds
  const SUFFIX := ".json"

  datatype StateFile = Unreadable | InProgress | Completed(updated: int)

  datatype Entry = Entry(name: string, isDirectory: bool)

  datatype Candidate = Candidate(digest: string, updated: int)

  predicate HasSuffix(name: string) {
    |name| >= |SUFFIX| && name[|name| - |SUFFIX|..] == SUFFIX
  }

  function TrimSuffix(name: string): string
    requires HasSuffix(name)
  {
    name[..|name| - |SUFFIX|]
  }

  /** A record that a prune may consider at all. */
  predicate Eligible(files: map<string, StateFile>, current: string, active: set<string>, entry: Entry) {
    && !entry.isDirectory && HasSuffix(entry.name)
    && var digest := TrimSuffix(entry.name);
       digest != current && digest !in active && digest in files && files[digest].Completed?
  }

  function Candidates(files: map<string, StateFile>, current: string, active: set<string>,
                      entries: seq<Entry>): seq<Candidate> {
    if entries == [] then []
    else
      var last := entries[|entries| - 1];
      Candidates(files, current, active, entries[..|entries| - 1]) +
      if Eligible(files, current, active, last) then
        [Candidate(TrimSuffix(last.name), files[TrimSuffix(last.name)].updated)]
      else []
  }

  predicate Sorted(s: seq<Candidate>) {
    forall i, j :: 0 <= i < j < |s| ==> s[i].updated <= s[j].updated
  }

  predicate Expired(candidate: Candidate, now: int) {
    now - candidate.updated > RETENTION
  }

  /** The test of the removal loop. */
  predicate Removes(sorted: seq<Candidate>, now: int, index: nat)
    requires index < |sorted|
  {
    !(index >= |sorted| - MAX_RECORDS && !Expired(sorted[index], now))
  }

  /** How many of the sorted candidates the loop removes. */
  function RemovedCount(sorted: seq<Candidate>, now: int, from: nat): (n: nat)
    requires from <= |sorted|
    ensures from + n <= |sorted|
    decreases |sorted| - from
  {
    if from < |sorted| && Removes(sorted, now, from) then 1 + RemovedCount(sorted, now, from + 1) else 0
  }

  /** The removed candidates are exactly an oldest prefix: whatever stays is within the
      retention age, at most 4096 stay, and the prefix is no longer than these two rules ask. */
  lemma {:induction false} RemovesOldestPrefix(sorted: seq<Candidate>, now: int, from: nat)
    requires Sorted(sorted) && from <= |sorted|
    requires forall i :: 0 <= i < from ==> Removes(sorted, now, i)
    ensures forall i :: 0 <= i < |sorted| ==> (Removes(sorted, now, i) <==> i < from + RemovedCount(sorted, now, from))
    ensures |sorted| - (from + RemovedCount(sorted, now, from)) <= MAX_RECORDS
    ensures forall i :: from + RemovedCount(sorted, now, from) <= i < |sorted| ==> !Expired(sorted[i], now)
    ensures forall i :: 0 <= i < from + RemovedCount(sorted, now, from) ==>
              i < |sorted| - MAX_RECORDS || Expired(sorted[i], now)
    decreases |sorted| - from
  {
    if from < |sorted| && Removes(sorted, now, from) {
      RemovesOldestPrefix(sorted, now, from + 1);
    } else {
      forall i | 0 <= i < from ensures i < |sorted| - MAX_RECORDS || Expired(sorted[i], now) {
        assert Removes(sorted, now, i);
      }
    }
  }

  /** Candidates come only from listed, inactive, completed records other than the current one. */
  lemma {:induction false} CandidatesAreEligible(files: map<string, StateFile>, current: string, active: set<string>,
                                                 entries: seq<Entry>, c: Candidate)
    requires c in Candidates(files, current, active, entries)
    ensures c.digest != current && c.digest !in active && c.digest in files && files[c.digest] == Completed(c.updated)
    ensures Listed(entries, c.digest)
  {
    var last := entries[|entries| - 1];
    if HasSuffix(last.name) { assert TrimSuffix(last.name) + ".json" == last.name; }
    if c in Candidates(files, current, active, entries[..|entries| - 1]) {
      CandidatesAreEligible(files, current, active, entries[..|entries| - 1], c);
    }
  }

  /** The directory lists the state file of this digest. */
  predicate Listed(entries: seq<Entry>, digest: string) {
    Entry(digest + ".json", false) in entries
  }

  lemma TrimsSuffix(digest: string)
    ensures HasSuffix(digest + ".json") && TrimSuffix(digest + ".json") == digest
  {
    assert (digest + ".json")[|digest|..] == ".json";
  }

  /** And every such record that the directory lists is a candidate. */
  lemma {:induction false} CandidatesAreComplete(files: map<string, StateFile>, current: string, active: set<string>,
                                                 entries: seq<Entry>, digest: string, updated: int)
    requires Listed(entries, digest) && digest != current && digest !in active
    requires digest in files && files[digest] == Completed(updated)
    ensures Candidate(digest, updated) in Candidates(files, current, active, entries)
  {
    var last := entries[|entries| - 1];
    if last == Entry(digest + ".json", false) {
      TrimsSuffix(digest);
    } else {
      assert entries == entries[..|entries| - 1] + [last];
      CandidatesAreComplete(files, current, active, entries[..|entries| - 1], digest, updated);
    }
  }

  /** The completed records that a prune may remove and that are there. */
  function Prunable(files: map<string, StateFile>, current: string, active: set<string>,
                    entries: seq<Entry>): set<string> {
    set d | d in files && Listed(entries, d) && d != current && d !in active && files[d].Completed?
  }

  lemma {:induction false} FewDigests(s: seq<Candidate>)
    ensures |Digests(s)| <= |s|
  {
    if s != [] {
      FewDigests(s[1..]);
      assert Digests(s) == Digests(s[1..]) + {s[0].digest};
    }
  }

  /** What a prune leaves when every removal works: at most 4096 records that it could have
      removed, and none that is older than 30 days. */
  lemma PruneLeaves(files: map<string, StateFile>, after: map<string, StateFile>, current: string, active: set<string>,
                    entries: seq<Entry>, now: int, sorted: seq<Candidate>, removed: nat)
    requires multiset(sorted) == multiset(Candidates(files, current, active, entries)) && removed <= |sorted|
    requires |sorted| - removed <= 4096 && after == files - Digests(sorted[..removed])
    requires forall i :: removed <= i < |sorted| ==> now - sorted[i].updated <= 30 * 24 * 60 * 60 * 1_000_000_000
    ensures |Prunable(after, current, active, entries)| <= 4096
    ensures forall d :: d in Prunable(after, current, active, entries) ==>
              now - after[d].updated <= 30 * 24 * 60 * 60 * 1_000_000_000
  {
    var kept := Prunable(after, current, active, entries);
    forall d | d in kept
      ensures d in Digests(sorted[removed..]) && now - after[d].updated <= 30 * 24 * 60 * 60 * 1_000_000_000
    {
      CandidatesAreComplete(files, current, active, entries, d, files[d].updated);
      var c := Candidate(d, files[d].updated);
      assert c in multiset(sorted);
      assert sorted == sorted[..removed] + sorted[removed..] && c !in sorted[..removed];
      var i :| 0 <= i < |sorted[removed..]| && sorted[removed..][i] == c;
      assert sorted[removed + i] == c;
    }
    FewDigests(sorted[removed..]);
    Subset(kept, Digests(sorted[removed..]));
  }

  lemma Subset(a: set<string>, b: set<string>)
    requires a <= b
    ensures |a| <= |b|
  {
    assert b == a + (b - a);
  }

  /** No in-progress, active, current or unreadable record is ever among the removed ones. */
  lemma RemovedWereEligible(files: map<string, StateFile>, current: string, active: set<string>, entries: seq<Entry>,
                            sorted: seq<Candidate>, removed: nat, digest: string)
    requires multiset(sorted) == multiset(Candidates(files, current, active, entries)) && removed <= |sorted|
    requires digest in Digests(sorted[..removed])
    ensures digest in Prunable(files, current, active, entries)
  {
    var c :| c in sorted[..removed] && c.digest == digest;
    assert c in multiset(sorted);
    CandidatesAreEligible(files, current, active, entries, c);
  }

  /** The state files and the active set of a protocol state, under the digests of its keys. */
  ghost predicate Represents(files: map<string, StateFile>, active: set<string>, digest: P.Key -> string, s: P.State) {
    && (forall k :: digest(k) in active <==> k in s.active)
    && (forall k :: digest(k) in files && files[digest(k)].Completed? ==>
          s.File(k).visible.Some? && s.File(k).visible.value.progress.Completed?)
  }

  /** What a prune removes, the protocol allows it to remove: each key is inactive and its
      record completed. */
  lemma RemovesOnlyPrunable(files: map<string, StateFile>, current: string, active: set<string>, entries: seq<Entry>,
                            sorted: seq<Candidate>, removed: nat, digest: P.Key -> string, s: P.State, key: P.Key)
    requires multiset(sorted) == multiset(Candidates(files, current, active, entries)) && removed <= |sorted|
    requires Represents(files, active, digest, s) && digest(key) in Digests(sorted[..removed])
    ensures s.Prunable(key) && digest(key) != current
  {
    RemovedWereEligible(files, current, active, entries, sorted, removed, digest(key));
  }

  function Digests(s: seq<Candidate>): set<string> {
    set c | c in s :: c.digest
  }

  class StateDirectory {
    var files: map<string, StateFile>
    var locks: set<string>

    constructor (files: map<string, StateFile>, locks: set<string>)
      ensures this.files == files && this.locks == locks
    {
      this.files, this.locks := files, locks;
    }

    /** Prunes the directory whose listing is `entries`. Removal errors are ignored, so the
        records in `stuck` and the locks in `stuckLocks` stay. `sorted` is the order the loop
        visited and `removed` how many of its first candidates it tried to unlink. */
    method PruneBestEffort(current: string, active: set<string>, entries: seq<Entry>, now: int, stuck: set<string>,
                           stuckLocks: set<string>)
        returns (ghost sorted: seq<Candidate>, ghost removed: nat)
      modifies this
      ensures Sorted(sorted) && multiset(sorted) == multiset(Candidates(old(files), current, active, entries))
      ensures removed <= |sorted| && |sorted| - removed <= MAX_RECORDS
      ensures forall i :: 0 <= i < |sorted| ==> (i < removed <==> i < |sorted| - MAX_RECORDS || Expired(sorted[i], now))
      ensures forall d :: d in Prunable(old(files), current, active, entries) ==>
                Candidate(d, old(files)[d].updated) in sorted
      ensures forall d :: d in old(files) && d !in Prunable(old(files), current, active, entries) ==>
                d in files && files[d] == old(files)[d]
      ensures stuck == {} ==>
                forall d :: d in Prunable(old(files), current, active, entries) && d in files ==>
                  now - old(files)[d].updated <= 30 * 24 * 60 * 60 * 1_000_000_000
      ensures stuck == {} ==>
                && |Prunable(files, current, active, entries)| <= 4096
                && forall d :: d in Prunable(files, current, active, entries) ==>
                     now - files[d].updated <= 30 * 24 * 60 * 60 * 1_000_000_000
      ensures files == old(files) - (Digests(sorted[..removed]) - stuck)
      ensures locks == old(locks) - (Digests(sorted[..removed]) - stuckLocks)
    {
      var candidates := Collect(current, active, entries);
      var ordered := SortByUpdate(candidates);
      sorted, removed := ordered, RemovedCount(ordered, now, 0);
      RemovesOldestPrefix(ordered, now, 0);
      forall d | d in Prunable(files, current, active, entries) ensures Candidate(d, files[d].updated) in ordered {
        CandidatesAreComplete(files, current, active, entries, d, files[d].updated);
        assert Candidate(d, files[d].updated) in multiset(ordered);
      }
      RemoveOldest(ordered, now, stuck, stuckLocks, removed);
      forall d | d in old(files) && d !in Prunable(old(files), current, active, entries)
        ensures d in files && files[d] == old(files)[d]
      {
        if d in Digests(ordered[..removed]) {
          RemovedWereEligible(old(files), current, active, entries, ordered, removed, d);
        }
      }
      if stuck == {} {
        PruneLeaves(old(files), files, current, active, entries, now, ordered, removed);
      }
    }

    /** The candidates among the listed entries, in the order of the listing. */
    method Collect(current: string, active: set<string>, entries: seq<Entry>) returns (candidates: seq<Candidate>)
      ensures candidates == Candidates(files, current, active, entries)
    {
      candidates := [];
      for k := 0 to |entries|
        invariant candidates == Candidates(files, current, active, entries[..k])
      {
        assert entries[..k + 1][..k] == entries[..k];
        var entry := entries[k];
        if entry.isDirectory || !HasSuffix(entry.name) { continue; }
        var digest := TrimSuffix(entry.name);
        if digest == current || digest in active { continue; }
        if digest !in files || !files[digest].Completed? { continue; }
        candidates := candidates + [Candidate(digest, files[digest].updated)];
      }
      assert entries[..|entries|] == entries;
    }

    method RemoveOldest(ordered: seq<Candidate>, now: int, stuck: set<string>, stuckLocks: set<string>,
                        ghost removed: nat)
      requires removed <= |ordered|
      requires forall i :: 0 <= i < |ordered| ==> (Removes(ordered, now, i) <==> i < removed)
      modifies this
      ensures files == old(files) - (Digests(ordered[..removed]) - stuck)
      ensures locks == old(locks) - (Digests(ordered[..removed]) - stuckLocks)
    {
      var removeCount := |ordered| - MAX_RECORDS;
      for index := 0 to |ordered|
        invariant files == old(files) - (Digests(ordered[..if index < removed then index else removed]) - stuck)
        invariant locks == old(locks) - (Digests(ordered[..if index < removed then index else removed]) - stuckLocks)
      {
        var candidate := ordered[index];
        assert Removes(ordered, now, index) <==> index < removed;
        if index >= removeCount && now - candidate.updated <= RETENTION { continue; }
        assert ordered[..index + 1] == ordered[..index] + [candidate];
        assert Digests(ordered[..index + 1]) == Digests(ordered[..index]) + {candidate.digest};
        if candidate.digest !in stuck { files := files - {candidate.digest}; }
        if candidate.digest !in stuckLocks { locks := locks - {candidate.digest}; }
      }
    }
  }

  /** Puts a candidate behind all that are not newer. */
  function Insert(s: seq<Candidate>, c: Candidate): (r: seq<Candidate>)
    requires Sorted(s)
    ensures Sorted(r) && |r| == |s| + 1
    ensures r[0] == c || (s != [] && r[0] == s[0])
  {
    if s == [] || c.updated < s[0].updated then [c] + s
    else
      var rest := Insert(s[1..], c);
      assert s[0].updated <= rest[0].updated;
      assert forall i :: 0 < i < |rest| ==> rest[0].updated <= rest[i].updated;
      [s[0]] + rest
  }

  lemma {:induction false} InsertAdds(s: seq<Candidate>, c: Candidate)
    requires Sorted(s)
    ensures multiset(Insert(s, c)) == multiset(s) + multiset{c}
  {
    if s != [] && !(c.updated < s[0].updated) {
      InsertAdds(s[1..], c);
      assert s == [s[0]] + s[1..];
    }
  }

  /** Orders candidates by update time; candidates with equal times come in any order. */
  method SortByUpdate(s: seq<Candidate>) returns (r: seq<Candidate>)
    ensures Sorted(r) && multiset(r) == multiset(s)
  {
    r := [];
    for k := 0 to |s|
      invariant Sorted(r) && multiset(r) == multiset(s[..k])
    {
      assert s[..k + 1] == s[..k] + [s[k]];
      InsertAdds(r, s[k]);
      r := Insert(r, s[k]);
    }
    assert s[..|s|] == s;
  }
}
