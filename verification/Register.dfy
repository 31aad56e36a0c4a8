/** What is known about the contents of one durably written state file.

    `visible` is what a read returns now. `possible` holds everything the file may hold
    after a power loss at this moment: directory entries that changed since the last
    directory sync may come back in their old form. */
module Register {
  import opened Common

  /** How far a durable write got before it returned: an error before the rename leaves the
      file alone, an error after the rename (opening, syncing or closing the directory)
      leaves the new contents visible but not yet safe, and no error makes them safe. */
  datatype Outcome = NotPublished | Unsynced | Published

  datatype Register<T(==)> = Register(visible: Option<T>, possible: set<Option<T>>) {
    predicate Valid() {
      visible in possible
    }

    /** Nothing but the visible contents can come back after a power loss. */
    predicate Settled() {
      possible == {visible}
    }

    function Write(payload: T, outcome: Outcome): Register<T> {
      match outcome
      case NotPublished => this
      case Unsynced => Register(Some(payload), possible + {Some(payload)})
      case Published => Register(Some(payload), {Some(payload)})
    }

    /** An unlink that is not followed by a directory sync. */
    function Unlink(): Register<T> {
      Register(None, possible + {None})
    }

    function Recover(contents: Option<T>): Register<T> {
      Register(contents, {contents})
    }
  }

  function Missing<T(==)>(): Register<T> {
    Register(None, {None})
  }

  /** What can happen to one file: write attempts and power losses. */
  datatype FileEvent<T> = Attempt(payload: T, outcome: Outcome) | PowerLoss(contents: Option<T>)

  predicate Possible<T(==)>(r: Register<T>, event: FileEvent<T>) {
    event.PowerLoss? ==> event.contents in r.possible
  }

  function After<T(==)>(r: Register<T>, event: FileEvent<T>): Register<T> {
    match event
    case Attempt(payload, outcome) => r.Write(payload, outcome)
    case PowerLoss(contents) => r.Recover(contents)
  }

  predicate History<T(==)>(r: Register<T>, events: seq<FileEvent<T>>)
    decreases |events|
  {
    events == [] || (Possible(r, events[0]) && History(After(r, events[0]), events[1..]))
  }

  function Final<T(==)>(r: Register<T>, events: seq<FileEvent<T>>): Register<T>
    requires History(r, events)
    decreases |events|
  {
    if events == [] then r else Final(After(r, events[0]), events[1..])
  }

  /** The payloads some attempt of the history tried to write. */
  function Attempted<T(==)>(events: seq<FileEvent<T>>): set<Option<T>> {
    if events == [] then {}
    else (if events[0].Attempt? then {Some(events[0].payload)} else {}) + Attempted(events[1..])
  }

  /** Over any history of write attempts and power losses, only whole contents that were
      possible at the start or that some attempt wrote can be read or recovered. */
  lemma {:induction false} OnlyWholePayloads<T>(r: Register<T>, events: seq<FileEvent<T>>)
    requires r.Valid() && History(r, events)
    ensures Final(r, events).Valid()
    ensures Final(r, events).possible <= r.possible + Attempted(events)
    decreases |events|
  {
    if events != [] {
      OnlyWholePayloads(After(r, events[0]), events[1..]);
    }
  }

  /** Once a write has returned without error, no later power loss can bring back anything
      older: only that payload, or payloads of later attempts, can ever be found. */
  lemma {:induction false} PublishedSurvives<T>(r: Register<T>, payload: T, later: seq<FileEvent<T>>)
    requires History(r.Write(payload, Published), later)
    ensures Final(r.Write(payload, Published), later).visible in {Some(payload)} + Attempted(later)
    ensures Attempted(later) == {} ==>
              Final(r.Write(payload, Published), later) == Register(Some(payload), {Some(payload)})
  {
    OnlyWholePayloads(r.Write(payload, Published), later);
  }
}
