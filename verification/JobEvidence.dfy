/** How the inspection of one job decides whether its exact systemd unit exists. */
module JobEvidence {
  import opened Common
  import P = JobProtocol

  datatype JobStatus = Starting | Running | Completed | Failed | TimedOut | Cancelled | Unknown

  predicate IsTerminal(status: JobStatus) {
    status in {Completed, Failed, TimedOut, Cancelled}
  }

  datatype Lookup = Present | Missing | LookupFailed

  /** What `systemctl show` printed about the unit. */
  datatype SystemdState = SystemdState(loadState: string, activeState: string, result: string, execMainCode: string,
                                       execMainStatus: string) {
    predicate Loaded() {
      loadState != "not-found" && loadState != ""
    }

    function Status(): JobStatus {
      if activeState == "activating" then Starting
      else if activeState in {"active", "reloading", "deactivating"} then Running
      else if activeState == "failed" then Failed
      else if activeState == "inactive" && result == "success" && execMainCode == "1"
          && execMainStatus == "0" then Completed
      else if activeState == "inactive" && result != "" && result != "success" then Failed
      else Unknown
    }
  }

  /** What reading `result.json` gave; a complete result carries a terminal status. */
  datatype FinalResult = Final(status: JobStatus) | NoResult | ResultUnreadable

  datatype JobInfo = JobInfo(status: JobStatus, directory: bool, unitPresent: bool)

  datatype Inspection = Info(info: JobInfo) | NotFound | Error

  function InspectJob(directory: Lookup, systemd: Result<SystemdState>, final: FinalResult): Inspection {
    if directory.LookupFailed? then Error
    else if systemd.Err? then Error
    else
      var state, present := systemd.value, directory.Present?;
      if !present && !state.Loaded() then NotFound
      else if present && final.Final? then Info(JobInfo(final.status, present, state.Loaded()))
      else if present && final.ResultUnreadable? then Error
      else Info(JobInfo(state.Status(), present, state.Loaded()))
  }

  datatype Evidence = Accepted(info: JobInfo) | Absent | Neither | Failure

  /** The evidence that one inspection gives. */
  function Weigh(inspection: Inspection): Evidence {
    match inspection
    case Info(info) =>
      if info.unitPresent || IsTerminal(info.status) || info.status in {Starting, Running} then Accepted(info)
      else if info.directory && info.status.Unknown? then Absent
      else Neither
    case _ => Failure
  }

  /** A unit counts as absent exactly when the job directory is there, systemd answered that
      the unit is not loaded and has nothing to say about it, and there is no final result. */
  lemma AbsentExactly(directory: Lookup, systemd: Result<SystemdState>, final: FinalResult)
    requires final.Final? ==> IsTerminal(final.status)
    ensures Weigh(InspectJob(directory, systemd, final)).Absent? <==>
            directory.Present? && systemd.Ok? && !systemd.value.Loaded() && systemd.value.Status().Unknown?
                && final.NoResult?
    ensures Weigh(InspectJob(directory, systemd, final)).Accepted? ==>
            systemd.Ok? && (systemd.value.Loaded() || final.Final? || !systemd.value.Status().Unknown?)
    ensures systemd.Ok? && systemd.value.Loaded() && !directory.LookupFailed? && !final.ResultUnreadable? ==>
            Weigh(InspectJob(directory, systemd, final)).Accepted?
    ensures systemd.Ok? && directory.Present? && final.Final? ==> Weigh(InspectJob(directory, systemd, final)).Accepted?
  {
  }

  /** Nothing that the inspection looked at failed. */
  predicate Answered(directory: Lookup, systemd: Result<SystemdState>, final: FinalResult) {
    !directory.LookupFailed? && systemd.Ok? && (directory.Present? ==> !final.ResultUnreadable?)
  }

  /** Where systemd has nothing to say about a unit that is not loaded, an inspection that is
      answered accepts exactly the units that are loaded or have a final result, finds absent
      exactly the other ones that have a directory, and one that is not answered fails. */
  lemma InspectsExactly(directory: Lookup, systemd: Result<SystemdState>, final: FinalResult)
    requires final.Final? ==> IsTerminal(final.status)
    requires systemd.Ok? && !systemd.value.Loaded() ==> systemd.value.Status().Unknown?
    ensures var visible := systemd.Ok? && (systemd.value.Loaded() || (directory.Present? && final.Final?));
            match Weigh(InspectJob(directory, systemd, final))
            case Accepted(_) => Answered(directory, systemd, final) && visible
            case Absent => Answered(directory, systemd, final) && !visible && directory.Present?
            case Neither => false
            case Failure => !Answered(directory, systemd, final) || (!visible && directory.Missing?)
  {
    if Answered(directory, systemd, final) && systemd.value.Loaded() {
      assert !InspectJob(directory, systemd, final).Error?;
    }
  }

  /** The two polling steps of the protocol, first the unit and then the result, do what one such
      inspection says: `s` is the state they look at. */
  lemma PollsAsInspected(s: P.State, directory: Lookup, systemd: Result<SystemdState>, final: FinalResult,
                         choice: P.Choice)
    requires final.Final? ==> IsTerminal(final.status)
    requires systemd.Ok? && !systemd.value.Loaded() ==> systemd.value.Status().Unknown?
    requires s.pc.PollingUnit? && (s.pc.record.id in s.results ==> s.pc.record.id in s.specs)
    requires !directory.LookupFailed? ==> (directory.Present? <==> s.pc.record.id in s.specs)
    requires systemd.Ok? ==> (systemd.value.Loaded() <==> s.pc.record.id in s.units)
    requires directory.Present? && !final.ResultUnreadable? ==> (final.Final? <==> s.pc.record.id in s.results)
    requires choice.ok == Answered(directory, systemd, final)
    ensures var record, attempt, failed := s.pc.record, s.pc.attempt, s.pc.failed;
            var looked := P.Advance(s, choice.(ok := systemd.Ok? && !directory.LookupFailed?));
            var after := if looked.pc.PollingResult? then P.Advance(looked, choice) else looked;
            match Weigh(InspectJob(directory, systemd, final))
            case Accepted(_) => after.pc == P.Completing(record, true)
            case Absent => after.pc == P.Waiting(record, attempt, failed, true, choice.window)
            case Neither => false
            case Failure => after.pc == P.Waiting(record, attempt, true, false, choice.window)
  {
    InspectsExactly(directory, systemd, final);
  }

  /** What each state of a unit counts as. */
  lemma StatusExactly(s: SystemdState)
    ensures s.Status() == Starting <==> s.activeState == "activating"
    ensures s.Status() == Running <==> s.activeState in ["active", "reloading", "deactivating"]
    ensures s.Status() == Completed <==>
            s.activeState == "inactive" && s.result == "success" && s.execMainCode == "1" && s.execMainStatus == "0"
    ensures s.Status() == Failed <==>
            s.activeState == "failed" || (s.activeState == "inactive" && s.result != "" && s.result != "success")
    ensures s.Status() in {Starting, Running, Completed, Failed, Unknown}
    ensures s.Loaded() <==> s.loadState != "" && s.loadState != "not-found"
  {
  }

  /** What an inspection reports: the final result if there is one, and else what systemd says;
      it finds nothing exactly where there is neither a directory nor a loaded unit. */
  lemma InspectionExactly(directory: Lookup, systemd: Result<SystemdState>, final: FinalResult)
    ensures var inspection := InspectJob(directory, systemd, final);
            && (inspection == NotFound <==> directory == Missing && systemd.Ok? && !systemd.value.Loaded())
            && (inspection == Error <==>
                  || directory == LookupFailed || systemd.Err?
                  || (directory == Present && final == ResultUnreadable))
            && (inspection.Info? && directory == Present && final.Final? ==> inspection.info.status == final.status)
            && (inspection.Info? && !(directory == Present && final.Final?) ==>
                  inspection.info.status == systemd.value.Status())
            && (inspection.Info? ==>
                  && (inspection.info.directory <==> directory == Present)
                  && (inspection.info.unitPresent <==> systemd.value.Loaded()))
  {
  }
}
