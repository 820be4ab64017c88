/** Attaching the detonation proof to the retrieved artifacts (cli.py), file by file: the
    launch's own account of it, module Launch, is what these files say. */
module ArtifactCopy {
  import opened Folders
  import opened Outcomes
  import opened Publish
  import Launch

  const RECEIPT := "workspace_detonation.json"
  const RUN_STATE := "run_state.json"

  /** The outcomes of the path checks, of the two copies, of loading the job, and of the
      refresh. */
  datatype ArtifactCalls = ArtifactCalls(
    check: Fault, receipt: CopyCalls, state: Fault, runState: CopyCalls, load: Fault, refresh: RefreshCalls)
  {
    predicate Proper() { receipt.Proper() && runState.Proper() && refresh.Proper() }
  }

  /** How a file is read: as a receipt, and for what it says of the step detonate.workspace. */
  datatype Reader = Reader(receipt: string -> Option<Launch.Receipt>, done: string -> bool)

  function Read<T>(files: Files, name: string, read: string -> T, otherwise: T): T {
    if name in files && files[name].File? then read(files[name].content) else otherwise
  }

  /** What the files of the retrieved artifacts say. */
  function Reading(files: Files, reader: Reader): Launch.Bundle {
    Launch.Bundle(Read(files, RECEIPT, reader.receipt, None), Read(files, JOB, reader.done, false),
                  Read(files, CHECKPOINTS, reader.done, false), Read(files, RUN_RECORD, reader.done, false))
  }

  lemma ArtifactNamesAreApart()
    ensures RECEIPT !in TARGETS && RECEIPT !in TEMPS && RUN_STATE !in TARGETS && RUN_STATE !in TEMPS
    ensures TempOf(RECEIPT) !in TARGETS && TempOf(RECEIPT) !in TEMPS
    ensures TempOf(RUN_STATE) !in TARGETS && TempOf(RUN_STATE) !in TEMPS
    ensures RECEIPT != RUN_STATE && TempOf(RECEIPT) != RUN_STATE && TempOf(RUN_STATE) != RECEIPT
    ensures TempOf(RECEIPT) != TempOf(RUN_STATE)
  {
    assert |RECEIPT| == 25 && |RUN_STATE| == 14 && |JOB| == 8 && |CHECKPOINTS| == 16 && |RUN_RECORD| == 15;
    assert |TempOf(RECEIPT)| == 30 && |TempOf(RUN_STATE)| == 19;
    assert |TempOf(JOB)| == 13 && |TempOf(CHECKPOINTS)| == 21 && |TempOf(RUN_RECORD)| == 20;
  }

  /** The receipt is copied. */
  ghost predicate Attaches(before: Files, calls: ArtifactCalls) {
    calls.check.Fine? && At(before, RECEIPT) != Some(Directory) && CopyWorks(before, RECEIPT, calls.receipt)
  }

  /** The run state is copied and the job is there to be refreshed. */
  ghost predicate Prepares(before: Files, calls: ArtifactCalls) {
    && calls.state.Fine? && At(before, RUN_STATE) != Some(Directory) && CopyWorks(before, RUN_STATE, calls.runState)
    && JOB in before && before[JOB].File? && At(before, RUN_RECORD) != Some(Directory)
    && calls.load.Fine? && At(before, CHECKPOINTS) != Some(Directory)
  }

  /** How many of the three files the refresh replaces. */
  ghost function Refreshed(before: Files, calls: ArtifactCalls): nat
    requires calls.Proper()
  {
    if Attaches(before, calls) && Prepares(before, calls) then PublishedBy(FirstFailure(before, calls.refresh, 0))
    else 0
  }

  /** The first steps of the refresh depend on the temporaries alone. */
  lemma {:induction false} SameFailure(a: Files, b: Files, calls: RefreshCalls, n: nat)
    requires calls.Proper() && n <= 9 && forall i :: 0 <= i < 3 ==> At(a, TEMPS[i]) == At(b, TEMPS[i])
    ensures FirstFailure(a, calls, n) == FirstFailure(b, calls, n)
    decreases 9 - n
  {
    hide TempOf;
    if n < 9 {
      SameFailure(a, b, calls, n + 1);
      if n < 3 {
        assert At(a, TEMPS[n]) == At(b, TEMPS[n]);
      }
    }
  }

  /** The first `k` of the three files are new; the receipt is new when `attached`; every other
      file but the run state and the temporaries is as before. */
  ghost predicate Placed(files: Files, before: Files, receipt: string, contents: seq<string>, attached: bool, k: nat)
    requires |contents| == 3
  {
    && At(files, RECEIPT) == (if attached then Some(File(receipt)) else At(before, RECEIPT))
    && forall i :: 0 <= i < 3 ==>
         At(files, TARGETS[i]) == if i < k then Some(File(contents[i])) else At(before, TARGETS[i])
  }

  /** One of the two copies into the bundle. */
  method CopyInto(folder: Folder, name: string, text: string, call: Fault, calls: CopyCalls) returns (r: Fault)
    requires calls.Proper() && (name == RECEIPT || name == RUN_STATE)
    modifies folder
    ensures r.Fine? <==>
      call.Fine? && old(At(folder.files, name)) != Some(Directory) && CopyWorks(old(folder.files), name, calls)
    ensures r.Fine? ==> At(folder.files, name) == Some(File(text))
    ensures !r.Fine? ==> At(folder.files, name) == old(At(folder.files, name))
    ensures SameElsewhere(folder.files, old(folder.files), {name, TempOf(name)})
  {
    TempsAreApart(name, name);
    hide TempOf, CopyWorks, TempSurvivesCopy;
    if !call.Fine? {
      return call;
    }
    if name in folder.files && folder.files[name].Directory? {
      return FuseKitFault("invalid survivor path");
    }
    r := CopyFileAtomically(folder, text, name, calls);
  }

  /** What stands between the receipt and the refresh. */
  method Prepare(folder: Folder, runState: string, calls: ArtifactCalls) returns (r: Fault)
    requires calls.Proper()
    modifies folder
    ensures r.Fine? <==> Prepares(old(folder.files), calls)
    ensures SameElsewhere(folder.files, old(folder.files), {RUN_STATE, TempOf(RUN_STATE)})
  {
    ArtifactNamesAreApart();
    hide TempOf, CopyWorks;
    assert JOB in TARGETS && CHECKPOINTS in TARGETS && RUN_RECORD in TARGETS;
    ghost var before := folder.files;
    r := CopyInto(folder, RUN_STATE, runState, calls.state, calls.runState);
    if !r.Fine? {
      return;
    }
    assert At(folder.files, JOB) == At(before, JOB) && At(folder.files, RUN_RECORD) == At(before, RUN_RECORD)
        && At(folder.files, CHECKPOINTS) == At(before, CHECKPOINTS);
    if !(JOB in folder.files && folder.files[JOB].File?) {
      return FuseKitFault("retrieved job state is missing");
    }
    if RUN_RECORD in folder.files && folder.files[RUN_RECORD].Directory? {
      return FuseKitFault("Cannot refresh Run Record at invalid survivor path.");
    }
    if !calls.load.Fine? {
      return calls.load;
    }
    if CHECKPOINTS in folder.files && folder.files[CHECKPOINTS].Directory? {
      return FuseKitFault("Cannot refresh checkpoints at invalid survivor path.");
    }
    r := Fine;
  }

  /** `_copy_workspace_detonation_to_remote_artifacts`, on the files.  The outcome is the one
      that the launch's account of the copy is about. */
  method CopyProof(folder: Folder, receipt: string, runState: string, contents: seq<string>, calls: ArtifactCalls)
    returns (r: Fault, ghost outcome: Launch.CopyCalls)
    requires calls.Proper() && |contents| == 3
    modifies folder
    ensures outcome.Proper() && (r.Fine? <==> outcome.Works())
    ensures outcome.attach.Fine? <==> Attaches(old(folder.files), calls)
    ensures outcome.Made() == Refreshed(old(folder.files), calls)
    ensures Placed(folder.files, old(folder.files), receipt, contents, outcome.attach.Fine?, outcome.Made())
  {
    hide TempOf, Attaches, Prepares, FirstFailure, AlwaysPrefix, Published, TempSurvives, Handled, Placed,
      SameElsewhere;
    ghost var before := folder.files;
    r := CopyInto(folder, RECEIPT, receipt, calls.check, calls.receipt);
    outcome := Launch.CopyCalls(r, Fine, Fine, 3);
    ghost var attached := folder.files;
    AttachesExactly(before, calls);
    ReceiptPlaced(attached, before, receipt, contents, r.Fine?);
    if !r.Fine? {
      return;
    }
    SamePreparation(attached, before, calls);
    r := Prepare(folder, runState, calls);
    outcome := Launch.CopyCalls(Fine, r, Fine, 3);
    ghost var prepared := folder.files;
    StatePlaced(prepared, attached, before, receipt, contents);
    if !r.Fine? {
      return;
    }
    SameFailure(prepared, before, calls.refresh, 0);
    r := RefreshThree(folder, contents, calls.refresh);
    outcome := Launch.CopyCalls(Fine, Fine, r, PublishedBy(FirstFailure(before, calls.refresh, 0)));
    ThreePlaced(folder.files, prepared, before, receipt, contents, outcome.replaced);
  }

  lemma AttachesExactly(before: Files, calls: ArtifactCalls)
    ensures Attaches(before, calls) <==>
      calls.check.Fine? && At(before, RECEIPT) != Some(Directory) && CopyWorks(before, RECEIPT, calls.receipt)
  {
  }

  ghost predicate SameTemps(files: Files, before: Files) {
    forall i :: 0 <= i < 3 ==> At(files, TEMPS[i]) == At(before, TEMPS[i])
  }

  lemma ReceiptPlaced(files: Files, before: Files, receipt: string, contents: seq<string>, attached: bool)
    requires |contents| == 3 && SameElsewhere(files, before, {RECEIPT, TempOf(RECEIPT)})
    requires At(files, RECEIPT) == if attached then Some(File(receipt)) else At(before, RECEIPT)
    ensures Placed(files, before, receipt, contents, attached, 0) && SameTemps(files, before)
  {
    ArtifactNamesAreApart();
    hide TempOf;
    assert forall i :: 0 <= i < 3 ==> TARGETS[i] in TARGETS && TEMPS[i] in TEMPS;
  }

  lemma StatePlaced(files: Files, attached: Files, before: Files, receipt: string, contents: seq<string>)
    requires |contents| == 3 && SameElsewhere(files, attached, {RUN_STATE, TempOf(RUN_STATE)})
    requires Placed(attached, before, receipt, contents, true, 0) && SameTemps(attached, before)
    ensures Placed(files, before, receipt, contents, true, 0) && SameTemps(files, before)
  {
    ArtifactNamesAreApart();
    hide TempOf;
    assert forall i :: 0 <= i < 3 ==> TARGETS[i] in TARGETS && TEMPS[i] in TEMPS;
    assert At(files, RECEIPT) == At(attached, RECEIPT);
    assert forall i :: 0 <= i < 3 ==>
        At(files, TARGETS[i]) == At(attached, TARGETS[i]) && At(files, TEMPS[i]) == At(attached, TEMPS[i]);
  }

  lemma ThreePlaced(files: Files, prepared: Files, before: Files, receipt: string, contents: seq<string>, k: nat)
    requires |contents| == 3 && Published(files, prepared, contents, k)
    requires Placed(prepared, before, receipt, contents, true, 0)
    ensures Placed(files, before, receipt, contents, true, k)
  {
    ArtifactNamesAreApart();
    hide TempOf;
    assert At(files, RECEIPT) == At(prepared, RECEIPT);
  }

  /** The copy of the receipt does not bear on what follows. */
  lemma SamePreparation(after: Files, before: Files, calls: ArtifactCalls)
    requires SameElsewhere(after, before, {RECEIPT, TempOf(RECEIPT)})
    ensures Prepares(after, calls) <==> Prepares(before, calls)
  {
    ArtifactNamesAreApart();
    hide TempOf;
    assert JOB in TARGETS && CHECKPOINTS in TARGETS && RUN_RECORD in TARGETS;
    assert At(after, RUN_STATE) == At(before, RUN_STATE);
    assert At(after, TempOf(RUN_STATE)) == At(before, TempOf(RUN_STATE));
    assert At(after, JOB) == At(before, JOB) && At(after, RUN_RECORD) == At(before, RUN_RECORD);
    assert At(after, CHECKPOINTS) == At(before, CHECKPOINTS);
  }

  /** Read back, the files say what the launch's account says they do. */
  lemma FilesSayWhatTheLaunchSays(files: Files, before: Files, receipt: string, contents: seq<string>, reader: Reader,
      outcome: Launch.CopyCalls)
    requires |contents| == 3 && forall i :: 0 <= i < 3 ==> reader.done(contents[i])
    requires Placed(files, before, receipt, contents, outcome.attach.Fine?, outcome.Made()) && outcome.Made() <= 3
    ensures Reading(files, reader) == Launch.CopiedInto(Reading(before, reader), reader.receipt(receipt), outcome)
  {
    assert TARGETS[0] == JOB && TARGETS[1] == CHECKPOINTS && TARGETS[2] == RUN_RECORD;
    hide TARGETS;
    ReadAt(files, before, reader);
  }

  lemma ReadAt(a: Files, b: Files, reader: Reader)
    ensures forall name :: At(a, name) == At(b, name) ==>
              Read(a, name, reader.done, false) == Read(b, name, reader.done, false)
              && Read(a, name, reader.receipt, None) == Read(b, name, reader.receipt, None)
  {
  }
}
