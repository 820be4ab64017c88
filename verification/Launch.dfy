/** One OCI launch (cli.py): provisioning, remote setup, the worker-replacement drill and
    teardown, with any external call allowed to fail.

    A run makes each external call at most once, so a `LaunchCalls` value, one outcome for
    each call site, is an arbitrary run.  Workers are numbered in the order the run
    creates them; `live` holds those that still exist. */
module Launch {
  import opened Json
  import opened Outcomes
  import opened Teardown
  import Gate = VerificationGate

  /** A failed provisioning may leave its instance behind. */
  datatype ProvisionCall = Provisioned | ProvisionRaised(fault: Fault, leaked: bool)

  /** Writing oci_workspace.json; a failed write may leave a torn file. */
  datatype WriteCall = Written | WriteRaised(fault: Fault, torn: bool)

  /** Recording a teardown: the receipt file, which a failed write may leave torn, then the
      run-state flag, which may have reached the disk although the write is reported as
      failed. */
  datatype RecordCalls = RecordCalls(receipt: Fault, torn: bool, flag: Fault, flagLanded: bool)

  /** Attaching the receipt to the retrieved artifacts, then copying the run state there, then
      refreshing three files; a refresh that fails has replaced the first `replaced` of them
      (module ArtifactCopy has the files). */
  datatype CopyCalls = CopyCalls(attach: Fault, runState: Fault, refresh: Fault, replaced: nat) {
    predicate Proper() { replaced <= 3 && (refresh.Fine? ==> replaced == 3) }
    predicate Works() { attach.Fine? && runState.Fine? && refresh.Fine? }

    /** How many of the three files are replaced. */
    function Made(): nat { if attach.Fine? && runState.Fine? then replaced else 0 }
  }

  /** What the retrieved artifacts say: the receipt beside them, and whether the step
      detonate.workspace is done in job.json, checkpoints.json and run_record.json. */
  datatype Bundle = Bundle(receipt: Option<Receipt>, jobDone: bool, checkpointsDone: bool, recordDone: bool)

  datatype DrillCalls = DrillCalls(
    save: Fault,
    provision: ProvisionCall,
    saveProvisioned: Fault,
    originalTeardown: TeardownCalls,
    resume: Fault,
    rollback: TeardownCalls,
    saveFailed: Fault)

  datatype LaunchCalls = LaunchCalls(
    noDetonate: bool,
    prepare: Fault,
    provision: ProvisionCall,
    markReady: Fault,
    writeWorkspace: WriteCall,
    saveProvisioned: Fault,
    setup: Fault,
    setupTeardown: TeardownCalls,
    setupRecord: RecordCalls,
    setupSave: Fault,
    retrieved: Bundle,
    report: Option<map<string, Value>>,
    collect: Fault,
    refusedTeardown: TeardownCalls,
    refusedRecord: RecordCalls,
    refusedCopy: CopyCalls,
    refusedSave: Fault,
    drillCheck: Outcome<bool>,
    drill: DrillCalls,
    writeReplacement: WriteCall,
    preflight: Fault,
    markSafe: Fault,
    finalTeardown: TeardownCalls,
    finalRecord: RecordCalls,
    finalCopy: CopyCalls,
    finalSave: Fault,
    openclaw: Fault)
  {
    ghost predicate Truthful() {
      && setupTeardown.Truthful() && refusedTeardown.Truthful() && finalTeardown.Truthful()
      && drill.originalTeardown.Truthful() && drill.rollback.Truthful()
      && (provision.ProvisionRaised? ==> !provision.fault.Fine?)
      && (drill.provision.ProvisionRaised? ==> !drill.provision.fault.Fine?)
      && (writeWorkspace.WriteRaised? ==> !writeWorkspace.fault.Fine?)
      && (writeReplacement.WriteRaised? ==> !writeReplacement.fault.Fine?)
      && (drillCheck.Raised? ==> !drillCheck.fault.Fine?)
      && refusedCopy.Proper() && finalCopy.Proper()
    }

    /** The retrieved report allows the worker to be destroyed. */
    ghost predicate Safe(show: Value -> string) {
      report.Some? && Gate.AllowsDetonation(report.value, show)
    }

    ghost predicate Ready(show: Value -> string) {
      report.Some? && Gate.AllowsLaunchProgress(report.value, show)
    }

    /** The remote setup ends with an exception the launch does not handle. */
    predicate SetupBreaksOff() { !setup.Fine? && !setup.FuseKitFault? }

    predicate DrillPassed() { drillCheck == Returned(true) }

    /** The worker that the final teardown is for. */
    function Final(): nat { if DrillPassed() then 0 else 1 }

    /** The artifacts were retrieved. */
    predicate Retrieves() {
      && prepare.Fine? && provision.Provisioned? && markReady.Fine? && writeWorkspace.Written?
      && saveProvisioned.Fine? && setup.Fine?
    }
  }

  /** Where a run ended. */
  datatype Exit =
    | Completed
    | BeforeProvisioning
    | ProvisioningFailed
    | BeforeRecording
    | BeforeTeardown
    | AfterSetupFailure
    | AfterRefusedReport
    | AfterSkipping
    | DrillFailed
    | AfterDrill
    | AfterFinalTeardown

  datatype Receipt = Receipt(complete: bool, deleted: set<string>, failures: set<string>, missing: seq<string>)

  /** The status of the job step detonate.workspace. */
  datatype StepStatus = Pending | Done | Failed | Skipped

  ghost predicate TeardownSucceeds(calls: TeardownCalls, record: RecordCalls, show: Value -> string) {
    calls.Returns() && ProvesDestruction(calls, show) && record.receipt.Fine? && record.flag.Fine?
  }

  /** Teardown and record come to an end without an exception. */
  ghost predicate RecordReturns(calls: TeardownCalls, record: RecordCalls, show: Value -> string) {
    calls.Returns() && record.receipt.Fine? && (ProvesDestruction(calls, show) ==> record.flag.Fine?)
  }

  ghost predicate DrillSucceeds(d: DrillCalls, show: Value -> string) {
    && d.save.Fine? && d.provision.Provisioned? && d.saveProvisioned.Fine?
    && d.originalTeardown.Returns() && ProvesDestruction(d.originalTeardown, show)
    && d.resume.Fine?
  }

  /** Where a run with these outcomes ends. */
  ghost function Ending(calls: LaunchCalls, show: Value -> string): Exit {
    if !calls.prepare.Fine? then BeforeProvisioning
    else if calls.provision.ProvisionRaised? then ProvisioningFailed
    else if !calls.markReady.Fine? || calls.writeWorkspace.WriteRaised? then BeforeRecording
    else if !calls.saveProvisioned.Fine? || calls.SetupBreaksOff() then BeforeTeardown
    else if !calls.setup.Fine? then AfterSetupFailure
    else if !calls.collect.Fine? then BeforeTeardown
    else if !calls.Ready(show) then AfterRefusedReport
    else EndingWithReport(calls, show)
  }

  ghost function EndingWithReport(calls: LaunchCalls, show: Value -> string): Exit {
    if calls.noDetonate || !calls.Safe(show) then
      if calls.finalSave.Fine? && calls.openclaw.Fine? then Completed else AfterSkipping
    else if calls.drillCheck.Raised? then BeforeTeardown
    else if !calls.DrillPassed() && !DrillSucceeds(calls.drill, show) then DrillFailed
    else if !calls.DrillPassed() && calls.writeReplacement.WriteRaised? then AfterDrill
    else if !calls.preflight.Fine? || !calls.markSafe.Fine? then AfterDrill
    else if && TeardownSucceeds(calls.finalTeardown, calls.finalRecord, show)
            && calls.finalCopy.Works() && calls.finalSave.Fine? && calls.openclaw.Fine? then Completed
    else AfterFinalTeardown
  }

  /** The workers a failed drill leaves. */
  ghost function AfterFailedDrill(d: DrillCalls): set<nat> {
    if !d.save.Fine? then {0}
    else if d.provision.ProvisionRaised? then if d.provision.leaked then {0, 1} else {0}
    else
      (if d.saveProvisioned.Fine? && d.originalTeardown.Destroys() then {} else {0})
      + (if d.rollback.Destroys() then {} else {1})
  }

  /** The workers left when a run ends at `exit`. */
  ghost function Survivors(calls: LaunchCalls, exit: Exit, show: Value -> string): set<nat> {
    match exit
    case Completed => if calls.noDetonate || !calls.Safe(show) then {0} else {}
    case BeforeProvisioning => {}
    case ProvisioningFailed => if calls.provision.ProvisionRaised? && calls.provision.leaked then {0} else {}
    case BeforeRecording => {0}
    case BeforeTeardown => {0}
    case AfterSetupFailure => if calls.noDetonate || !calls.setupTeardown.Destroys() then {0} else {}
    case AfterRefusedReport => if calls.noDetonate || !calls.refusedTeardown.Destroys() then {0} else {}
    case AfterSkipping => {0}
    case DrillFailed => AfterFailedDrill(calls.drill)
    case AfterDrill => {calls.Final()}
    case AfterFinalTeardown => if calls.finalTeardown.Destroys() then {} else {calls.Final()}
  }

  // ------------------------------------------------------- the run, told plainly

  // The predicates below are about the outcomes of the calls alone.

  /** The run gets past provisioning and remote setup. */
  predicate SetsUp(calls: LaunchCalls) {
    && calls.prepare.Fine? && calls.provision.Provisioned? && calls.markReady.Fine?
    && calls.writeWorkspace.Written? && calls.saveProvisioned.Fine? && calls.setup.Fine?
  }

  /** The setup fails in the one way the launch handles. */
  predicate SetupFails(calls: LaunchCalls) {
    && calls.prepare.Fine? && calls.provision.Provisioned? && calls.markReady.Fine?
    && calls.writeWorkspace.Written? && calls.saveProvisioned.Fine? && calls.setup.FuseKitFault?
  }

  /** The report was read and lets the launch go on. */
  ghost predicate GoesOn(calls: LaunchCalls, show: Value -> string) {
    SetsUp(calls) && calls.collect.Fine? && calls.report.Some? && Gate.AllowsLaunchProgress(calls.report.value, show)
  }

  /** The report was read and stops the launch. */
  ghost predicate IsRefused(calls: LaunchCalls, show: Value -> string) {
    && SetsUp(calls) && calls.collect.Fine?
    && (calls.report.None? || !Gate.AllowsLaunchProgress(calls.report.value, show))
  }

  /** The worker is to be destroyed. */
  ghost predicate MeansToDestroy(calls: LaunchCalls, show: Value -> string) {
    GoesOn(calls, show) && !calls.noDetonate && Gate.AllowsDetonation(calls.report.value, show)
  }

  ghost predicate RunsDrill(calls: LaunchCalls, show: Value -> string) {
    MeansToDestroy(calls, show) && calls.drillCheck == Returned(false)
  }

  /** The drill replaces the first worker, and the replacement is on record. */
  ghost predicate DrillWorks(calls: LaunchCalls, show: Value -> string) {
    && calls.drill.save.Fine? && calls.drill.provision.Provisioned? && calls.drill.saveProvisioned.Fine?
    && calls.drill.originalTeardown.Returns() && ProvesDestruction(calls.drill.originalTeardown, show)
    && calls.drill.resume.Fine? && calls.writeReplacement.Written?
  }

  /** The run gets as far as the preflight. */
  ghost predicate ReachesPreflight(calls: LaunchCalls, show: Value -> string) {
    && MeansToDestroy(calls, show)
    && (calls.drillCheck == Returned(true) || (calls.drillCheck == Returned(false) && DrillWorks(calls, show)))
  }

  /** The run gets as far as the final teardown. */
  ghost predicate ReachesTeardown(calls: LaunchCalls, show: Value -> string) {
    ReachesPreflight(calls, show) && calls.preflight.Fine? && calls.markSafe.Fine?
  }

  /** Every call on the path the launch takes works. */
  ghost predicate EveryCallWorks(calls: LaunchCalls, show: Value -> string) {
    && GoesOn(calls, show) && calls.finalSave.Fine? && calls.openclaw.Fine?
    && (!calls.noDetonate && Gate.AllowsDetonation(calls.report.value, show) ==>
          && ReachesTeardown(calls, show)
          && calls.finalTeardown.Returns() && ProvesDestruction(calls.finalTeardown, show)
          && calls.finalRecord.receipt.Fine? && calls.finalRecord.flag.Fine?
          && calls.finalCopy.attach.Fine? && calls.finalCopy.runState.Fine? && calls.finalCopy.refresh.Fine?)
  }

  /** The first worker exists at the end: it came into being, and of the teardowns meant for it
      none that the run reaches is effective. */
  ghost predicate FirstLives(calls: LaunchCalls, show: Value -> string) {
    && calls.prepare.Fine? && (calls.provision.ProvisionRaised? ==> calls.provision.leaked)
    && !(SetupFails(calls) && !calls.noDetonate && calls.setupTeardown.Destroys())
    && !(IsRefused(calls, show) && !calls.noDetonate && calls.refusedTeardown.Destroys())
    && !(RunsDrill(calls, show) && calls.drill.save.Fine? && calls.drill.provision.Provisioned?
         && calls.drill.saveProvisioned.Fine? && calls.drill.originalTeardown.Destroys())
    && !(ReachesTeardown(calls, show) && calls.drillCheck == Returned(true) && calls.finalTeardown.Destroys())
  }

  /** The drill breaks down once the replacement is there. */
  ghost predicate DrillBreaksDown(drill: DrillCalls, show: Value -> string) {
    || !drill.saveProvisioned.Fine? || !drill.originalTeardown.Returns()
    || !ProvesDestruction(drill.originalTeardown, show) || !drill.resume.Fine?
  }

  /** The replacement exists at the end. */
  ghost predicate ReplacementLives(calls: LaunchCalls, show: Value -> string) {
    && RunsDrill(calls, show) && calls.drill.save.Fine?
    && (calls.drill.provision.ProvisionRaised? ==> calls.drill.provision.leaked)
    && !(&& calls.drill.provision.Provisioned? && DrillBreaksDown(calls.drill, show)
         && calls.drill.rollback.Destroys())
    && !(ReachesTeardown(calls, show) && calls.finalTeardown.Destroys())
  }

  /** The two accounts agree: where a run ends says who survives, and so does the history of
      each worker. */
  lemma EveryWorkerIsAccountedFor(calls: LaunchCalls, show: Value -> string)
    requires calls.Truthful()
    ensures var live := Survivors(calls, Ending(calls, show), show);
            && (0 in live <==> FirstLives(calls, show)) && (1 in live <==> ReplacementLives(calls, show))
            && live <= {0, 1}
  {
    hide ProvesDestruction, Gate.Allows;
    TrueOrFalse(calls.drillCheck);
    ProvenMeansDestroyed(calls.drill.originalTeardown, show);
    ProvenMeansDestroyed(calls.finalTeardown, show);
    if SetsUp(calls) && calls.collect.Fine? && calls.report.Some? {
      DetonationMeansProgress(calls.report.value, show);
    }
  }

  lemma DetonationMeansProgress(report: map<string, Value>, show: Value -> string)
    ensures Gate.AllowsDetonation(report, show) ==> Gate.AllowsLaunchProgress(report, show)
  {
    if Gate.AllowsDetonation(report, show) {
      Gate.DetonationImpliesLaunchProgress(report, show);
    }
  }

  lemma TrueOrFalse(check: Outcome<bool>)
    ensures check.Raised? || check == Returned(true) || check == Returned(false)
  {
    if check.Returned? {
      var passed := check.value;
      assert passed == true || passed == false;
      assert check == Returned(passed);
    }
  }

  /** A launch completes exactly when every call on its path works. */
  lemma CompletesWhenEveryCallWorks(calls: LaunchCalls, show: Value -> string)
    ensures Ending(calls, show) == Completed <==> EveryCallWorks(calls, show)
  {
    hide ProvesDestruction, Gate.Allows;
    TrueOrFalse(calls.drillCheck);
  }

  lemma StoppedByPreflight(calls: LaunchCalls, show: Value -> string)
    requires calls.Truthful()
    requires ReachesPreflight(calls, show) && (!calls.preflight.Fine? || !calls.markSafe.Fine?)
    ensures LeavesPapers(calls, show) && !EveryCallWorks(calls, show) && calls.Retrieves()
    ensures Survivors(calls, Ending(calls, show), show) == {if calls.drillCheck == Returned(true) then 0 else 1}
  {
    hide ProvesDestruction, Gate.Allows;
  }

  /** What a run leaves alone on paper when it does not get as far as a teardown it records, or
      a step it skips. */
  ghost predicate LeavesPapers(calls: LaunchCalls, show: Value -> string) {
    && !SetupFails(calls) && !IsRefused(calls, show)
    && (GoesOn(calls, show) ==> MeansToDestroy(calls, show) && !ReachesTeardown(calls, show))
  }

  lemma PapersLeftAlone(p: Papers, start: Papers, calls: LaunchCalls, show: Value -> string)
    requires PapersAfter(p, start, calls, Ending(calls, show), show) && LeavesPapers(calls, show)
    ensures p.step == start.step && p.detonated == start.detonated && p.bundle == start.bundle
    ensures Certified(p.receipt) == Certified(start.receipt)
  {
    hide ProvesDestruction, Gate.Allows;
    TrueOrFalse(calls.drillCheck);
  }

  lemma ProvenMeansDestroyed(calls: TeardownCalls, show: Value -> string)
    ensures calls.Truthful() && calls.Returns() && ProvesDestruction(calls, show) ==> calls.Destroys()
  {
    hide CleanupComplete;
  }

  /** A launch that returns 0 after a teardown had every worker it ever had destroyed, and
      proved it. */
  lemma WhatSuccessDestroyed(calls: LaunchCalls, show: Value -> string)
    ensures calls.Truthful() && Ending(calls, show) == Completed && !calls.noDetonate && calls.Safe(show) ==>
      && calls.finalTeardown.Destroys() && ProvesDestruction(calls.finalTeardown, show)
      && (!calls.DrillPassed() ==>
            calls.drill.originalTeardown.Destroys() && ProvesDestruction(calls.drill.originalTeardown, show))
  {
    hide ProvesDestruction, Gate.Allows;
    ProvenMeansDestroyed(calls.finalTeardown, show);
    ProvenMeansDestroyed(calls.drill.originalTeardown, show);
  }

  /** Two workers are left only by a failed drill: when neither teardown destroyed its
      worker, or when the replacement leaked while it was being provisioned. */
  lemma TwoSurviveOnlyAFailedDrill(calls: LaunchCalls, exit: Exit, show: Value -> string)
    ensures |Survivors(calls, exit, show)| <= 2
    ensures |Survivors(calls, exit, show)| == 2 <==>
      && exit == DrillFailed && calls.drill.save.Fine?
      && if calls.drill.provision.ProvisionRaised? then calls.drill.provision.leaked
         else
           && !(calls.drill.saveProvisioned.Fine? && calls.drill.originalTeardown.Destroys())
           && !calls.drill.rollback.Destroys()
  {
    hide Gate.Allows;
    if exit == DrillFailed {
      SubsetOfTwo(AfterFailedDrill(calls.drill));
    } else {
      hide AfterFailedDrill;
      assert |Survivors(calls, exit, show)| <= 1;
    }
  }

  lemma SubsetOfTwo(s: set<nat>)
    requires s <= {0, 1}
    ensures |s| <= 2 && (|s| == 2 <==> s == {0, 1})
  {
    assert s == (if 0 in s then {0} else {}) + (if 1 in s then {1} else {});
  }

  /** It does happen: whenever the replacement is up and neither teardown destroys its worker,
      for whatever reason. */
  lemma BothWorkersCanSurvive(calls: LaunchCalls, show: Value -> string)
    ensures calls.Truthful() && ReachesDrill(calls, show) && NeitherIsDestroyed(calls.drill) ==>
      Ending(calls, show) == DrillFailed && Survivors(calls, DrillFailed, show) == {0, 1}
  {
    hide Gate.Allows, ProvesDestruction;
    ProvenMeansDestroyed(calls.drill.originalTeardown, show);
  }

  /** Nothing fails before the drill, and the drill is due. */
  ghost predicate ReachesDrill(calls: LaunchCalls, show: Value -> string) {
    && calls.Retrieves() && calls.collect.Fine? && calls.Ready(show) && calls.Safe(show) && !calls.noDetonate
    && calls.drillCheck == Returned(false)
  }

  predicate NeitherIsDestroyed(drill: DrillCalls) {
    && drill.save.Fine? && drill.provision.Provisioned?
    && !drill.originalTeardown.Destroys() && !drill.rollback.Destroys()
  }

  // ------------------------------------------------------- what the files say afterwards

  /** What a launch leaves on paper: the job step, the run-state flag, the receipt, and the
      retrieved artifacts. */
  datatype Papers = Papers(step: StepStatus, detonated: bool, receipt: Option<Receipt>, bundle: Bundle)

  predicate Certified(receipt: Option<Receipt>) { receipt.Some? && receipt.value.complete }

  datatype Recording = Recording(teardown: TeardownCalls, record: RecordCalls)

  /** The teardown that a run ending at `exit` tried to record. */
  ghost function RecordedAt(calls: LaunchCalls, exit: Exit, show: Value -> string): Option<Recording> {
    match exit
    case AfterSetupFailure => if calls.noDetonate then None else Some(Recording(calls.setupTeardown, calls.setupRecord))
    case AfterRefusedReport =>
      if calls.noDetonate then None else Some(Recording(calls.refusedTeardown, calls.refusedRecord))
    case AfterFinalTeardown => Some(Recording(calls.finalTeardown, calls.finalRecord))
    case Completed =>
      if calls.noDetonate || !calls.Safe(show) then None else Some(Recording(calls.finalTeardown, calls.finalRecord))
    case _ => None
  }

  /** The run marks the step as skipped. */
  ghost predicate Skips(calls: LaunchCalls, exit: Exit, show: Value -> string) {
    || (exit in {AfterSetupFailure, AfterRefusedReport} && calls.noDetonate)
    || exit == AfterSkipping
    || (exit == Completed && (calls.noDetonate || !calls.Safe(show)))
  }

  ghost function StepAfterRecord(c: Recording, before: StepStatus, show: Value -> string): StepStatus {
    if !RecordReturns(c.teardown, c.record, show) then before
    else if ProvesDestruction(c.teardown, show) then Done
    else Failed
  }

  ghost predicate FlagAfterRecord(c: Recording, before: bool, show: Value -> string) {
    || before
    || (&& c.teardown.Returns() && c.record.receipt.Fine? && ProvesDestruction(c.teardown, show)
        && (c.record.flag.Fine? || c.record.flagLanded))
  }

  ghost predicate CertifiedAfterRecord(c: Recording, before: bool, show: Value -> string) {
    if !c.teardown.Returns() then before
    else if c.record.receipt.Fine? then ProvesDestruction(c.teardown, show)
    else before && !c.record.torn
  }

  /** The copy that a run ending at `exit` got to. */
  ghost function CopyAt(calls: LaunchCalls, exit: Exit, show: Value -> string): Option<CopyCalls> {
    var c := RecordedAt(calls, exit, show);
    if c.None? || exit == AfterSetupFailure || !RecordReturns(c.value.teardown, c.value.record, show) then None
    else if exit == AfterRefusedReport then Some(calls.refusedCopy)
    else Some(calls.finalCopy)
  }

  /** How many of the three published files the run replaced. */
  ghost function Replaced(calls: LaunchCalls, exit: Exit, show: Value -> string): nat {
    var copy := CopyAt(calls, exit, show);
    if copy.Some? then copy.value.Made() else 0
  }

  /** The artifacts once the receipt is attached: every file that is refreshed says that the
      step is done, whatever the receipt says. */
  function CopiedInto(bundle: Bundle, receipt: Option<Receipt>, copy: CopyCalls): Bundle {
    if !copy.attach.Fine? then bundle
    else Bundle(receipt, bundle.jobDone || copy.Made() >= 1, bundle.checkpointsDone || copy.Made() >= 2,
                bundle.recordDone || copy.Made() >= 3)
  }

  /** The papers when a run that had these ones ends at `exit`. */
  ghost predicate PapersAfter(p: Papers, start: Papers, calls: LaunchCalls, exit: Exit, show: Value -> string) {
    var c, copy := RecordedAt(calls, exit, show), CopyAt(calls, exit, show);
    && p.step == (if Skips(calls, exit, show) then Skipped
                  else if c.None? then start.step
                  else StepAfterRecord(c.value, start.step, show))
    && (p.detonated <==> if c.None? then start.detonated else FlagAfterRecord(c.value, start.detonated, show))
    && (Certified(p.receipt) <==>
          if c.None? then Certified(start.receipt) else CertifiedAfterRecord(c.value, Certified(start.receipt), show))
    && (c.Some? && RecordReturns(c.value.teardown, c.value.record, show) ==> p.receipt.Some?)
    && p.bundle == (if copy.None? then start.bundle else CopiedInto(start.bundle, p.receipt, copy.value))
  }

  /** At these ends the run has touched nothing on paper. */
  lemma PapersUntouched(p: Papers, calls: LaunchCalls, exit: Exit, show: Value -> string)
    requires exit in {BeforeProvisioning, ProvisioningFailed, BeforeRecording, BeforeTeardown, DrillFailed, AfterDrill}
    ensures PapersAfter(p, p, calls, exit, show)
  {
  }

  /** The papers once the step is marked as skipped. */
  lemma PapersSkipped(p: Papers, calls: LaunchCalls, exit: Exit, show: Value -> string)
    requires Skips(calls, exit, show)
    ensures PapersAfter(p.(step := Skipped), p, calls, exit, show)
  {
    hide Gate.Allows;
  }

  /** The papers once a teardown is recorded and, for a retrieved bundle, copied. */
  ghost predicate Recorded(p: Papers, start: Papers, c: Recording, copy: Option<CopyCalls>, show: Value -> string) {
    && p.step == StepAfterRecord(c, start.step, show)
    && (p.detonated <==> FlagAfterRecord(c, start.detonated, show))
    && (Certified(p.receipt) <==> CertifiedAfterRecord(c, Certified(start.receipt), show))
    && (RecordReturns(c.teardown, c.record, show) ==> p.receipt.Some?)
    && p.bundle == (if copy.None? || !RecordReturns(c.teardown, c.record, show) then start.bundle
                    else CopiedInto(start.bundle, p.receipt, copy.value))
  }

  lemma PapersRecorded(p: Papers, start: Papers, calls: LaunchCalls, exit: Exit, copy: Option<CopyCalls>,
      show: Value -> string)
    requires RecordedAt(calls, exit, show).Some? && Recorded(p, start, RecordedAt(calls, exit, show).value, copy, show)
    requires copy == if exit == AfterSetupFailure then None
                     else if exit == AfterRefusedReport then Some(calls.refusedCopy) else Some(calls.finalCopy)
    ensures PapersAfter(p, start, calls, exit, show)
  {
    hide Gate.Allows, RecordReturns, StepAfterRecord, FlagAfterRecord, CertifiedAfterRecord;
  }

  /** The run leaves the step as it found it. */
  ghost predicate StepKept(calls: LaunchCalls, exit: Exit, show: Value -> string) {
    var c := RecordedAt(calls, exit, show);
    !Skips(calls, exit, show) && (c.None? || !RecordReturns(c.value.teardown, c.value.record, show))
  }

  /** The run leaves the receipt as it found it. */
  ghost predicate ReceiptKept(calls: LaunchCalls, exit: Exit, show: Value -> string) {
    var c := RecordedAt(calls, exit, show);
    c.None? || !c.value.teardown.Returns() || (!c.value.record.receipt.Fine? && !c.value.record.torn)
  }

  /** When the papers lie.  Each of them says "destroyed" although a worker lives exactly when
      it said so before the run, the run left it, and a worker survives.  The published step
      says so whenever it said so when retrieved or the refresh got to it. */
  lemma WhenPapersLie(p: Papers, start: Papers, calls: LaunchCalls, exit: Exit, show: Value -> string)
    requires calls.Truthful() && exit == Ending(calls, show) && PapersAfter(p, start, calls, exit, show)
    ensures var live := Survivors(calls, exit, show);
            && ((p.detonated ==> live == {}) <==> !start.detonated || live == {})
            && ((p.step == Done ==> live == {}) <==> !(start.step == Done && StepKept(calls, exit, show)) || live == {})
            && ((Certified(p.receipt) ==> live == {}) <==>
                  !(Certified(start.receipt) && ReceiptKept(calls, exit, show)) || live == {})
            && (p.bundle.jobDone <==> start.bundle.jobDone || Replaced(calls, exit, show) >= 1)
            && (p.bundle.checkpointsDone <==> start.bundle.checkpointsDone || Replaced(calls, exit, show) >= 2)
            && (p.bundle.recordDone <==> start.bundle.recordDone || Replaced(calls, exit, show) >= 3)
    // what the refresh publishes is true exactly when the teardown destroyed the worker, and
    // agrees with the job step and the receipt beside it exactly when that was proved
    ensures Replaced(calls, exit, show) >= 1 ==>
      && RecordedAt(calls, exit, show).Some? && p.bundle.receipt == p.receipt && p.receipt.Some?
      && var teardown := RecordedAt(calls, exit, show).value.teardown;
         && (Survivors(calls, exit, show) == {} <==> teardown.Destroys())
         && (p.step == Done <==> ProvesDestruction(teardown, show))
         && (Certified(p.bundle.receipt) <==> ProvesDestruction(teardown, show))
    // and success speaks the truth throughout
    ensures exit == Completed ==>
      if calls.noDetonate || !calls.Safe(show) then p.step == Skipped && Survivors(calls, exit, show) == {0}
      else && p.step == Done && p.detonated && Certified(p.receipt) && Survivors(calls, exit, show) == {}
           && p.bundle == Bundle(p.receipt, true, true, true)
  {
    hide ProvesDestruction, Gate.Allows;
    var c := RecordedAt(calls, exit, show);
    if c.Some? {
      ProvenMeansDestroyed(c.value.teardown, show);
    }
  }

  type Moments = seq<(set<nat>, bool)>

  /** At every moment there were at most two workers, and two only while the drill ran. */
  ghost predicate AtMostTwo(history: Moments) {
    forall i :: 0 <= i < |history| ==>
      |history[i].0| <= 2 && (|history[i].0| == 2 ==> history[i].1)
  }

  lemma NeverThree(history: Moments)
    ensures AtMostTwo(history) <==>
            forall i :: 0 <= i < |history| ==> |history[i].0| <= 2 && (|history[i].0| == 2 ==> history[i].1)
  {
  }

  class Run {
    var live: set<nat>
    var created: nat
    /** The worker in oci_workspace.json. */
    var recorded: Option<nat>
    /** The run-state flag workspace_detonated. */
    var detonated: bool
    var step: StepStatus
    /** workspace_detonation.json. */
    var receipt: Option<Receipt>

    /** The retrieved artifacts. */
    var bundle: Bundle

    /** Every set of live workers there was, and whether the drill was running. */
    ghost var history: Moments

    /** A run starts without workers; the papers are those that earlier runs left. */
    constructor (papers: Papers)
      ensures live == {} && created == 0 && recorded == None && history == [] && OnPaper() == papers
    {
      live, created, recorded, history := {}, 0, None, [];
      step, detonated, receipt, bundle := papers.step, papers.detonated, papers.receipt, papers.bundle;
    }

    function OnPaper(): Papers
      reads this
    {
      Papers(step, detonated, receipt, bundle)
    }

    method Provision(call: ProvisionCall, ghost inDrill: bool) returns (r: Outcome<nat>)
      requires call.ProvisionRaised? ==> !call.fault.Fine?
      requires AtMostTwo(history) && |live| <= (if inDrill then 1 else 0)
      modifies this`live, this`created, this`history
      ensures AtMostTwo(history)
      ensures created == old(created) + 1
      ensures r.Returned? <==> call.Provisioned?
      ensures r.Returned? ==> r.value == old(created)
      ensures r.Raised? ==> !r.fault.Fine?
      ensures live == if call.Provisioned? || call.leaked then old(live) + {old(created)} else old(live)
      ensures history == old(history) + [(live, inDrill)]
    {
      var id := created;
      created := created + 1;
      if call.Provisioned? || call.leaked {
        live := live + {id};
      }
      history := history + [(live, inDrill)];
      return if call.Provisioned? then Returned(id) else Raised(call.fault);
    }

    method Destroy(worker: nat, calls: TeardownCalls, ghost inDrill: bool, show: Value -> string)
      returns (r: Outcome<Report>)
      requires calls.Truthful()
      requires AtMostTwo(history) && |live| <= (if inDrill then 2 else 1)
      modifies this`live, this`history
      ensures AtMostTwo(history)
      ensures live == if calls.Destroys() then old(live) - {worker} else old(live)
      ensures history == old(history) + [(live, inDrill)]
      ensures r.Returned? <==> calls.Returns()
      ensures r.Raised? ==> !r.fault.Fine?
      ensures r.Returned? ==> (Complete(r.value, show) <==> ProvesDestruction(calls, show))
      ensures r.Returned? && Complete(r.value, show) ==> calls.Destroys()
    {
      r := DetonateOciWorkspace(calls, show);
      if calls.Destroys() {
        live := live - {worker};
      }
      history := history + [(live, inDrill)];
    }

    method WriteWorkspace(worker: nat, call: WriteCall) returns (r: Fault)
      requires call.WriteRaised? ==> !call.fault.Fine?
      modifies this`recorded
      ensures r.Fine? <==> call.Written?
      ensures recorded == if call.Written? then Some(worker) else if call.torn then None else old(recorded)
    {
      if call.Written? {
        recorded := Some(worker);
        return Fine;
      }
      if call.torn {
        recorded := None;
      }
      return call.fault;
    }

    /** `_record_workspace_detonation`: receipt, flag and job step say the same. */
    method RecordDetonation(report: Report, calls: RecordCalls, show: Value -> string) returns (r: Outcome<bool>)
      modifies this`detonated, this`step, this`receipt
      ensures r.Returned? <==> calls.receipt.Fine? && (Complete(report, show) ==> calls.flag.Fine?)
      ensures receipt ==
        (if calls.receipt.Fine? then Some(ReceiptFor(report, show)) else if calls.torn then None else old(receipt))
      ensures detonated == (old(detonated) || (&& calls.receipt.Fine? && Complete(report, show)
                                               && (calls.flag.Fine? || calls.flagLanded)))
      ensures r.Returned? ==> (r.value <==> Complete(report, show)) && step == (if r.value then Done else Failed)
      ensures r.Raised? ==> !r.fault.Fine? && step == old(step)
    {
      var complete := WorkspaceDetonationComplete(report, show);
      var missing := WorkspaceDetonationMissing(report, show);
      if !calls.receipt.Fine? {
        if calls.torn {
          receipt := None;
        }
        return Raised(calls.receipt);
      }
      var failures := set key | key in report && IsFailureKey(key);
      receipt := Some(Receipt(failures == {} && missing == [], DeletedKeys(report), failures, missing));
      assert failures == {} <==> forall key :: key in report ==> key !in failures;
      assert failures == report.Keys - DeletedKeys(report);
      if complete {
        if calls.flag.Fine? || calls.flagLanded {
          detonated := true;
        }
        :- calls.flag;
        step := Done;
      } else {
        step := Failed;
      }
      return Returned(complete);
    }

    /** Teardown and its record; the value is what was recorded. */
    method DestroyAndRecord(worker: nat, calls: TeardownCalls, record: RecordCalls, show: Value -> string)
      returns (r: Outcome<bool>)
      requires calls.Truthful() && live == {worker} && AtMostTwo(history)
      modifies this`live, this`history, this`detonated, this`step, this`receipt
      ensures AtMostTwo(history)
      ensures live == if calls.Destroys() then {} else {worker}
      ensures r.Returned? <==> RecordReturns(calls, record, show)
      ensures r.Returned? ==> (r.value <==> ProvesDestruction(calls, show))
      ensures r.Raised? ==> !r.fault.Fine?
      ensures r.Returned? ==> receipt.Some?
      ensures step == StepAfterRecord(Recording(calls, record), old(step), show)
      ensures detonated <==> FlagAfterRecord(Recording(calls, record), old(detonated), show)
      ensures Certified(receipt) <==> CertifiedAfterRecord(Recording(calls, record), Certified(old(receipt)), show)
    {
      hide AtMostTwo, Complete, MissingResources, DeletedKeys, ProvesDestruction;
      var report :- Destroy(worker, calls, false, show);
      ReceiptCertifies(report, show);
      r := RecordDetonation(report, record, show);
    }

    /** `_copy_workspace_detonation_to_remote_artifacts`: the receipt, if there is one, is
        attached, then each of the three files is replaced by one that says the step is done. */
    method AttachProof(calls: CopyCalls) returns (r: Fault)
      requires calls.Proper()
      modifies this`bundle
      ensures r.Fine? <==> receipt.None? || calls.Works()
      ensures bundle == if receipt.None? then old(bundle) else CopiedInto(old(bundle), receipt, calls)
    {
      if receipt.None? {
        return Fine;
      }
      if !calls.attach.Fine? {
        return calls.attach;
      }
      bundle := bundle.(receipt := receipt);
      if !calls.runState.Fine? {
        return calls.runState;
      }
      if calls.replaced >= 1 {
        bundle := bundle.(jobDone := true);
      }
      if calls.replaced >= 2 {
        bundle := bundle.(checkpointsDone := true);
      }
      if calls.replaced >= 3 {
        bundle := bundle.(recordDone := true);
      }
      return calls.refresh;
    }

    /** `_run_oci_worker_replacement_drill`, for the first worker. */
    method Drill(calls: DrillCalls, show: Value -> string) returns (r: Outcome<nat>)
      requires calls.originalTeardown.Truthful() && calls.rollback.Truthful()
      requires calls.provision.ProvisionRaised? ==> !calls.provision.fault.Fine?
      requires live == {0} && created == 1 && AtMostTwo(history)
      modifies this`live, this`created, this`history
      ensures AtMostTwo(history)
      ensures r.Returned? <==> DrillSucceeds(calls, show)
      ensures r.Returned? ==> r.value == 1 && live == {1}
      ensures r.Raised? ==> live == AfterFailedDrill(calls)
    {
      hide AtMostTwo, ProvesDestruction;
      :- calls.save;
      var replacement := Provision(calls.provision, true);
      if replacement.Raised? {
        :- calls.saveFailed;
        return Raised(replacement.fault);
      }
      r := DrillBody(replacement.value, calls, show);
      if r.Raised? {
        var rollback := Destroy(replacement.value, calls.rollback, true, show);
        if rollback.Raised? {
          return Raised(rollback.fault);
        }
        :- calls.saveFailed;
      }
    }

    /** The part of the drill in which the replacement exists. */
    method DrillBody(replacement: nat, calls: DrillCalls, show: Value -> string) returns (r: Outcome<nat>)
      requires calls.originalTeardown.Truthful()
      requires live == {0, replacement} && replacement != 0 && AtMostTwo(history)
      modifies this`live, this`history
      ensures AtMostTwo(history)
      ensures r.Returned? <==>
        && calls.saveProvisioned.Fine? && calls.originalTeardown.Returns()
        && ProvesDestruction(calls.originalTeardown, show) && calls.resume.Fine?
      ensures r.Returned? ==> r.value == replacement && live == {replacement}
      ensures live ==
        if calls.saveProvisioned.Fine? && calls.originalTeardown.Destroys() then {replacement} else {0, replacement}
    {
      hide AtMostTwo, Complete, ProvesDestruction;
      :- calls.saveProvisioned;
      var report :- Destroy(0, calls.originalTeardown, true, show);
      var complete := WorkspaceDetonationComplete(report, show);
      if !complete {
        return Raised(FuseKitFault("Worker replacement drill could not prove original OCI worker detonation."));
      }
      :- calls.resume;
      return Returned(replacement);
    }

    /** `_cmd_cloud_runner_launch`. */
    method Launch(calls: LaunchCalls, show: Value -> string) returns (r: Outcome<int>, ghost exit: Exit)
      requires calls.Truthful()
      requires live == {} && created == 0 && recorded == None && history == []
      modifies this
      ensures exit == Ending(calls, show)
      ensures r.Returned? <==> exit.Completed?
      ensures r.Returned? ==> r.value == 0
      // never more than two workers, and two only while the drill runs
      ensures forall i :: 0 <= i < |history| ==> |history[i].0| <= 2 && (|history[i].0| == 2 ==> history[i].1)
      // exactly these workers are left
      ensures live == Survivors(calls, exit, show)
      // success leaves no worker, or exactly the first one, which is on record
      ensures r.Returned? ==>
        if calls.noDetonate || !calls.Safe(show) then live == {0} && recorded == Some(0) && step == Skipped
        else live == {} && step == Done && detonated && Certified(receipt)
      // told plainly: it returns exactly when every call on its path works, and each worker
      // lives exactly when it came into being and no teardown that was reached destroyed it
      ensures r.Returned? <==> EveryCallWorks(calls, show)
      ensures live <= {0, 1}
        && (0 in live <==> FirstLives(calls, show)) && (1 in live <==> ReplacementLives(calls, show))
      // a preflight that fails stops the run before the final teardown
      ensures ReachesPreflight(calls, show) && (!calls.preflight.Fine? || !calls.markSafe.Fine?) ==>
        && r.Raised? && live == {if calls.drillCheck == Returned(true) then 0 else 1}
        && step == old(step) && detonated == old(detonated) && Certified(receipt) == Certified(old(receipt))
        && bundle == calls.retrieved
      ensures LeavesPapers(calls, show) ==>
        step == old(step) && detonated == old(detonated) && Certified(receipt) == Certified(old(receipt))
      // exactly when the flag, the step and the receipt lie
      ensures (detonated ==> live == {}) <==> !old(detonated) || Survivors(calls, exit, show) == {}
      ensures (step == Done ==> live == {}) <==>
              !(old(step) == Done && StepKept(calls, exit, show)) || Survivors(calls, exit, show) == {}
      ensures (Certified(receipt) ==> live == {}) <==>
              !(Certified(old(receipt)) && ReceiptKept(calls, exit, show)) || Survivors(calls, exit, show) == {}
      // exactly when the published step says done, and exactly when that is so
      ensures bundle.jobDone <==>
              (if calls.Retrieves() then calls.retrieved.jobDone else old(bundle).jobDone)
                || Replaced(calls, exit, show) >= 1
      ensures Replaced(calls, exit, show) >= 1 ==>
        && RecordedAt(calls, exit, show).Some? && bundle.receipt == receipt && receipt.Some?
        && var teardown := RecordedAt(calls, exit, show).value.teardown;
           && (live == {} <==> teardown.Destroys())
           && (step == Done <==> ProvesDestruction(teardown, show))
           && (Certified(bundle.receipt) <==> ProvesDestruction(teardown, show))
      // everything on paper follows from what was there and from where the run ended
      ensures PapersAfter(OnPaper(), StartOf(old(OnPaper()), calls), calls, exit, show)
      // the only ends at which a surviving worker is not the one on record
      ensures exit.DrillFailed? ==> recorded == Some(0)
      ensures forall w :: w in live && recorded != Some(w) ==>
        exit in {ProvisioningFailed, BeforeRecording, DrillFailed}
          || (exit.AfterDrill? && calls.writeReplacement.WriteRaised?)
    {
      hide PapersAfter, Survivors, StepKept, ReceiptKept, Replaced, Gate.Allows, AtMostTwo, RecordedAt,
        ProvesDestruction, Ending;
      ghost var start := StartOf(OnPaper(), calls);
      r, exit := Carry(calls, show);
      WhenPapersLie(OnPaper(), start, calls, exit, show);
      hide SetsUp, EveryCallWorks, FirstLives, ReplacementLives;
      NeverThree(history);
      CompletesWhenEveryCallWorks(calls, show);
      EveryWorkerIsAccountedFor(calls, show);
      if ReachesPreflight(calls, show) && (!calls.preflight.Fine? || !calls.markSafe.Fine?) {
        StoppedByPreflight(calls, show);
      }
      if LeavesPapers(calls, show) {
        PapersLeftAlone(OnPaper(), start, calls, show);
      }
    }

    /** The launch, step by step. */
    method Carry(calls: LaunchCalls, show: Value -> string) returns (r: Outcome<int>, ghost exit: Exit)
      requires calls.Truthful()
      requires live == {} && created == 0 && recorded == None && history == []
      modifies this
      ensures exit == Ending(calls, show)
      ensures r.Returned? <==> exit.Completed?
      ensures r.Returned? ==> r.value == 0 && (calls.noDetonate || !calls.Safe(show) ==> recorded == Some(0))
      ensures AtMostTwo(history)
      ensures live == Survivors(calls, exit, show)
      ensures PapersAfter(OnPaper(), StartOf(old(OnPaper()), calls), calls, exit, show)
      ensures exit.DrillFailed? ==> recorded == Some(0)
      ensures forall w :: w in live && recorded != Some(w) ==>
        exit in {ProvisioningFailed, BeforeRecording, DrillFailed}
          || (exit.AfterDrill? && calls.writeReplacement.WriteRaised?)
    {
      assert AtMostTwo(history);
      hide AtMostTwo, Gate.Allows, EndingWithReport, PapersAfter;
      PapersUntouched(OnPaper(), calls, BeforeProvisioning, show);
      PapersUntouched(OnPaper(), calls, ProvisioningFailed, show);
      PapersUntouched(OnPaper(), calls, BeforeRecording, show);
      PapersUntouched(OnPaper(), calls, BeforeTeardown, show);
      exit := BeforeProvisioning;
      :- calls.prepare;
      exit := ProvisioningFailed;
      var workspace :- Provision(calls.provision, false);
      exit := BeforeRecording;
      :- calls.markReady;
      :- WriteWorkspace(workspace, calls.writeWorkspace);
      exit := BeforeTeardown;
      :- calls.saveProvisioned;
      r, exit := AfterProvisioning(workspace, calls, show);
    }

    /** From the remote setup on. */
    method AfterProvisioning(workspace: nat, calls: LaunchCalls, show: Value -> string)
      returns (r: Outcome<int>, ghost exit: Exit)
      requires calls.Truthful()
      requires live == {0} && workspace == 0 && created == 1 && recorded == Some(0) && AtMostTwo(history)
      modifies this
      ensures AtMostTwo(history)
      ensures exit == if calls.SetupBreaksOff() then BeforeTeardown
                      else if !calls.setup.Fine? then AfterSetupFailure
                      else if !calls.collect.Fine? then BeforeTeardown
                      else if !calls.Ready(show) then AfterRefusedReport
                      else EndingWithReport(calls, show)
      ensures r.Returned? <==> exit.Completed?
      ensures r.Returned? ==> r.value == 0 && (calls.noDetonate || !calls.Safe(show) ==> recorded == Some(0))
      ensures live == Survivors(calls, exit, show)
      ensures var start := if calls.setup.Fine? then old(OnPaper()).(bundle := calls.retrieved) else old(OnPaper());
              PapersAfter(OnPaper(), start, calls, exit, show)
      ensures exit.DrillFailed? ==> recorded == Some(0)
      ensures forall w :: w in live && recorded != Some(w) ==>
        exit.DrillFailed? || (exit.AfterDrill? && calls.writeReplacement.WriteRaised?)
    {
      hide AtMostTwo, Gate.Allows, AfterFailedDrill, EndingWithReport, ProvesDestruction, PapersAfter, Recorded;
      exit := BeforeTeardown;
      ghost var start := OnPaper();
      PapersUntouched(start, calls, BeforeTeardown, show);
      if calls.SetupBreaksOff() {
        return Raised(calls.setup), exit;
      }
      if calls.setup.FuseKitFault? {
        exit := AfterSetupFailure;
        var recording := Recording(calls.setupTeardown, calls.setupRecord);
        r := Abandon(workspace, calls.noDetonate, recording, None, Then(calls.setupSave, calls.setup), show);
        AbandonedPapers(OnPaper(), start, calls, exit, show);
        return;
      }
      bundle := calls.retrieved;
      r, exit := AfterRetrieval(workspace, calls, show);
    }

    /** With the artifacts at hand. */
    method AfterRetrieval(workspace: nat, calls: LaunchCalls, show: Value -> string)
      returns (r: Outcome<int>, ghost exit: Exit)
      requires calls.Truthful()
      requires live == {0} && workspace == 0 && created == 1 && recorded == Some(0) && AtMostTwo(history)
      modifies this
      ensures AtMostTwo(history)
      ensures exit == if !calls.collect.Fine? then BeforeTeardown
                      else if !calls.Ready(show) then AfterRefusedReport
                      else EndingWithReport(calls, show)
      ensures r.Returned? <==> exit.Completed?
      ensures r.Returned? ==> r.value == 0 && (calls.noDetonate || !calls.Safe(show) ==> recorded == Some(0))
      ensures live == Survivors(calls, exit, show)
      ensures PapersAfter(OnPaper(), old(OnPaper()), calls, exit, show)
      ensures exit.DrillFailed? ==> recorded == Some(0)
      ensures forall w :: w in live && recorded != Some(w) ==>
        exit.DrillFailed? || (exit.AfterDrill? && calls.writeReplacement.WriteRaised?)
    {
      hide AtMostTwo, Gate.Allows, AfterFailedDrill, EndingWithReport, ProvesDestruction, PapersAfter, Recorded;
      ghost var start := OnPaper();
      exit := BeforeTeardown;
      PapersUntouched(start, calls, BeforeTeardown, show);
      :- calls.collect;
      var safe, ready := JudgeReport(calls.report, show);
      if ready {
        r, exit := AfterReport(workspace, safe, calls, show);
        return;
      }
      exit := AfterRefusedReport;
      var refused := FuseKitFault("Remote verification did not reach a passed or pending-safe state.");
      var recording := Recording(calls.refusedTeardown, calls.refusedRecord);
      r := Abandon(workspace, calls.noDetonate, recording, Some(calls.refusedCopy), Then(calls.refusedSave, refused),
                   show);
      AbandonedPapers(OnPaper(), start, calls, exit, show);
    }

    /** With a report that lets the launch go on. */
    method AfterReport(workspace: nat, safe: bool, calls: LaunchCalls, show: Value -> string)
      returns (r: Outcome<int>, ghost exit: Exit)
      requires calls.Truthful() && (safe <==> calls.Safe(show))
      requires live == {0} && workspace == 0 && created == 1 && recorded == Some(0) && AtMostTwo(history)
      modifies this
      ensures AtMostTwo(history)
      ensures exit == EndingWithReport(calls, show)
      ensures r.Returned? <==> exit.Completed?
      ensures r.Returned? ==> r.value == 0 && (calls.noDetonate || !calls.Safe(show) ==> recorded == Some(0))
      ensures live == Survivors(calls, exit, show)
      ensures PapersAfter(OnPaper(), old(OnPaper()), calls, exit, show)
      ensures exit.DrillFailed? ==> recorded == Some(0)
      ensures forall w :: w in live && recorded != Some(w) ==>
        exit.DrillFailed? || (exit.AfterDrill? && calls.writeReplacement.WriteRaised?)
    {
      hide AtMostTwo, Gate.Allows, AfterFailedDrill, TeardownSucceeds, DrillSucceeds;
      if calls.noDetonate || !safe {
        exit := AfterSkipping;
        step := Skipped;
        :- Then(calls.finalSave, calls.openclaw);
        exit := Completed;
        return Returned(0), exit;
      }
      r, exit := DrillAndDestroy(workspace, calls, show);
    }

    method JudgeReport(report: Option<map<string, Value>>, show: Value -> string) returns (safe: bool, ready: bool)
      ensures safe <==> report.Some? && Gate.AllowsDetonation(report.value, show)
      ensures ready <==> report.Some? && Gate.AllowsLaunchProgress(report.value, show)
      ensures safe ==> ready
    {
      if report.None? {
        return false, false;
      }
      var refusals := Gate.VerificationFailures(report.value, false, show);
      var obstacles := Gate.VerificationFailures(report.value, true, show);
      safe, ready := refusals == [], obstacles == [];
      if safe {
        Gate.DetonationImpliesLaunchProgress(report.value, show);
      }
    }

    /** A failed setup or a refused report: destroy the worker unless told not to, attach the
        proof to what was retrieved, then raise `ending`. */
    method Abandon(workspace: nat, noDetonate: bool, c: Recording, copy: Option<CopyCalls>, ending: Fault,
        show: Value -> string)
      returns (r: Outcome<int>)
      requires c.teardown.Truthful() && !ending.Fine? && (copy.Some? ==> copy.value.Proper())
      requires live == {workspace} && AtMostTwo(history)
      modifies this`live, this`history, this`detonated, this`step, this`receipt, this`bundle
      ensures r.Raised? && AtMostTwo(history)
      ensures live == if noDetonate || !c.teardown.Destroys() then {workspace} else {}
      ensures if noDetonate then OnPaper() == old(OnPaper()).(step := Skipped)
              else Recorded(OnPaper(), old(OnPaper()), c, copy, show)
    {
      hide AtMostTwo, ProvesDestruction;
      if noDetonate {
        step := Skipped;
      } else {
        if copy.Some? {
          var _ :- DestroyAndAttach(workspace, c, copy.value, show);
        } else {
          var _ :- DestroyAndRecord(workspace, c.teardown, c.record, show);
        }
      }
      return Raised(ending);
    }

    /** Teardown and its record, then the copy to the retrieved artifacts. */
    method DestroyAndAttach(workspace: nat, c: Recording, copy: CopyCalls, show: Value -> string)
      returns (r: Outcome<bool>)
      requires c.teardown.Truthful() && copy.Proper()
      requires live == {workspace} && AtMostTwo(history)
      modifies this`live, this`history, this`detonated, this`step, this`receipt, this`bundle
      ensures AtMostTwo(history)
      ensures live == if c.teardown.Destroys() then {} else {workspace}
      ensures r.Returned? <==> RecordReturns(c.teardown, c.record, show) && copy.Works()
      ensures r.Returned? ==> (r.value <==> ProvesDestruction(c.teardown, show))
      ensures r.Raised? ==> !r.fault.Fine?
      ensures Recorded(OnPaper(), old(OnPaper()), c, Some(copy), show)
    {
      hide AtMostTwo, ProvesDestruction, StepAfterRecord, FlagAfterRecord, CertifiedAfterRecord, Certified;
      r := DestroyAndRecord(workspace, c.teardown, c.record, show);
      if r.Returned? {
        :- AttachProof(copy);
      }
    }

    /** The drill, unless the remote side already passed it, and the final teardown. */
    method DrillAndDestroy(first: nat, calls: LaunchCalls, show: Value -> string)
      returns (r: Outcome<int>, ghost exit: Exit)
      requires calls.Truthful() && !calls.noDetonate && calls.Safe(show)
      requires live == {0} && first == 0 && created == 1 && recorded == Some(0) && AtMostTwo(history)
      modifies this
      ensures AtMostTwo(history)
      ensures exit == EndingWithReport(calls, show)
      ensures r.Returned? <==> exit.Completed?
      ensures r.Returned? ==> r.value == 0
      ensures live == Survivors(calls, exit, show)
      ensures PapersAfter(OnPaper(), old(OnPaper()), calls, exit, show)
      ensures exit.DrillFailed? ==> recorded == Some(0)
      ensures forall w :: w in live && recorded != Some(w) ==>
        exit.DrillFailed? || (exit.AfterDrill? && calls.writeReplacement.WriteRaised?)
    {
      hide AtMostTwo, Gate.Allows, AfterFailedDrill, TeardownSucceeds, DrillSucceeds;
      var workspace := first;
      exit := BeforeTeardown;
      var passed :- calls.drillCheck;
      if !passed {
        exit := DrillFailed;
        workspace :- Drill(calls.drill, show);
        exit := AfterDrill;
        :- WriteWorkspace(workspace, calls.writeReplacement);
      }
      exit := AfterDrill;
      :- Then(calls.preflight, calls.markSafe);
      r, exit := DestroyLast(workspace, calls, show);
    }

    method DestroyLast(workspace: nat, calls: LaunchCalls, show: Value -> string)
      returns (r: Outcome<int>, ghost exit: Exit)
      requires calls.Truthful() && !calls.noDetonate && calls.Safe(show)
      requires workspace == calls.Final() && live == {workspace} && recorded == Some(workspace) && AtMostTwo(history)
      modifies this`live, this`history, this`detonated, this`step, this`receipt, this`bundle
      ensures AtMostTwo(history)
      ensures exit == if && TeardownSucceeds(calls.finalTeardown, calls.finalRecord, show)
                         && calls.finalCopy.Works() && calls.finalSave.Fine? && calls.openclaw.Fine? then Completed
                      else AfterFinalTeardown
      ensures r.Returned? <==> exit.Completed?
      ensures r.Returned? ==> r.value == 0 && live == {}
      ensures live == if calls.finalTeardown.Destroys() then {} else {workspace}
      ensures PapersAfter(OnPaper(), old(OnPaper()), calls, exit, show)
    {
      hide AtMostTwo, Gate.Allows, ProvesDestruction, PapersAfter, Recorded;
      ProvenMeansDestroyed(calls.finalTeardown, show);
      ghost var start := OnPaper();
      exit := AfterFinalTeardown;
      var complete :=
        DestroyAndAttach(workspace, Recording(calls.finalTeardown, calls.finalRecord), calls.finalCopy, show);
      PapersRecorded(OnPaper(), start, calls, AfterFinalTeardown, Some(calls.finalCopy), show);
      PapersRecorded(OnPaper(), start, calls, Completed, Some(calls.finalCopy), show);
      if complete.Raised? {
        return Raised(complete.fault), exit;
      }
      :- calls.finalSave;
      if !complete.value {
        return Raised(FuseKitFault("OCI workspace detonation was incomplete; see workspace_detonation.json.")), exit;
      }
      :- calls.openclaw;
      exit := Completed;
      return Returned(0), exit;
    }
  }

  lemma AbandonedPapers(p: Papers, start: Papers, calls: LaunchCalls, exit: Exit, show: Value -> string)
    requires exit == AfterSetupFailure || exit == AfterRefusedReport
    requires if calls.noDetonate then p == start.(step := Skipped)
             else if exit == AfterSetupFailure then
               Recorded(p, start, Recording(calls.setupTeardown, calls.setupRecord), None, show)
             else
               var c := Recording(calls.refusedTeardown, calls.refusedRecord);
               Recorded(p, start, c, Some(calls.refusedCopy), show)
    ensures PapersAfter(p, start, calls, exit, show)
  {
    if calls.noDetonate {
      PapersSkipped(start, calls, exit, show);
    } else {
      PapersRecorded(p, start, calls, exit, if exit == AfterSetupFailure then None else Some(calls.refusedCopy), show);
    }
  }

  /** The papers with which a run starts, the artifacts being those it retrieves, if it does. */
  function StartOf(papers: Papers, calls: LaunchCalls): Papers {
    if calls.Retrieves() then papers.(bundle := calls.retrieved) else papers
  }

  /** The receipt that a report gets. */
  ghost function ReceiptFor(report: Report, show: Value -> string): Receipt {
    Receipt(Complete(report, show), DeletedKeys(report), report.Keys - DeletedKeys(report),
      MissingResources(report, show))
  }

  lemma ReceiptCertifies(report: Report, show: Value -> string)
    ensures Certified(Some(ReceiptFor(report, show))) <==> Complete(report, show)
  {
  }

  /** What earlier runs left outlives a run that leaves a worker: with the flag set, the step
      done and a complete receipt, the flag says that the living worker was destroyed, and so
      do the step and the receipt unless the run touched them. */
  method StalePapersMislead(calls: LaunchCalls, done: Receipt, bundle: Bundle, show: Value -> string) returns (run: Run)
    requires calls.Truthful() && done.complete && Survivors(calls, Ending(calls, show), show) != {}
    ensures run.live != {} && run.detonated
    ensures StepKept(calls, Ending(calls, show), show) ==> run.step == Done
    ensures ReceiptKept(calls, Ending(calls, show), show) ==> Certified(run.receipt)
  {
    hide Ending, Survivors, StepKept, ReceiptKept, Gate.Allows;
    run := new Run(Papers(Done, true, Some(done), bundle));
    var _, _ := run.Launch(calls, show);
  }

  /** A run whose published step lies: the report is missing, the teardown fails and leaves the
      worker, and the refresh still marks the step as done in all three files, beside a
      receipt that says the destruction is incomplete. */
  method PublishedStepMisleads(show: Value -> string) returns (run: Run)
    ensures run.live == {0} && run.bundle.jobDone && run.bundle.checkpointsDone && run.bundle.recordDone
    ensures run.bundle.receipt.Some? && !run.bundle.receipt.value.complete
  {
    var nothing := Bundle(None, false, false, false);
    var teardown := TeardownCalls(CleanupRaised(FuseKitFault("unreachable")), CloudRaised(FuseKitFault("busy"), false));
    var record := RecordCalls(Fine, false, Fine, false);
    var copy := CopyCalls(Fine, Fine, Fine, 3);
    var drill := DrillCalls(Fine, Provisioned, Fine, teardown, Fine, teardown, Fine);
    var calls := LaunchCalls(
      false, Fine, Provisioned, Fine, Written, Fine, Fine, teardown, record, Fine, nothing, None, Fine,
      teardown, record, copy, Fine, Returned(false), drill, Written, Fine, Fine, teardown, record, copy, Fine, Fine);
    hide Gate.Allows;
    run := new Run(Papers(Pending, false, None, nothing));
    var _, exit := run.Launch(calls, show);
    assert exit == AfterRefusedReport;
    assert PapersAfter(run.OnPaper(), StartOf(Papers(Pending, false, None, nothing), calls), calls, exit, show);
  }
}
