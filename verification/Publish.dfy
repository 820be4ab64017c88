/** Crash-safe publication of proof files into the retrieved artifacts (cli.py): the
    atomic copy of one file and the refresh of three. */
module Publish {
  import opened Folders
  import opened Outcomes

  function TempOf(name: string): string { "." + name + ".tmp" }

  lemma TempsAreApart(a: string, b: string)
    ensures TempOf(a) == TempOf(b) ==> a == b
    ensures TempOf(a) != a
    ensures b != "" && b[0] != '.' ==> TempOf(a) != b
  {
    assert TempOf(a)[1..|TempOf(a)| - 4] == a && TempOf(b)[1..|TempOf(b)| - 4] == b;
    assert |TempOf(a)| == |a| + 5 && TempOf(a)[0] == '.';
  }

  // ------------------------------------------------------- one file

  /** One outcome for each step that can fail. */
  datatype CopyCalls = CopyCalls(clear: Fault, openSource: Fault, write: WriteCall, replace: Fault, cleanup: Fault)
  {
    predicate Proper() { write.WriteFailed? ==> !write.fault.Fine? }

    /** Whatever fails, fails with an operating-system error. */
    predicate OnlyOsErrors() {
      && (clear.Fine? || clear.OsFault?) && (openSource.Fine? || openSource.OsFault?)
      && (replace.Fine? || replace.OsFault?) && (cleanup.Fine? || cleanup.OsFault?)
      && (write.WriteFailed? ==> write.fault.OsFault?)
    }
  }

  /** `_clear_receipt_temp`. */
  method ClearTemp(folder: Folder, temp: string, call: Fault) returns (r: Fault)
    modifies folder
    ensures r.Fine? <==> ClearWorks(old(folder.files), temp, call)
    ensures r.Fine? ==> folder.files == old(folder.files) - {temp}
    ensures !r.Fine? ==> folder.files == old(folder.files) && r == ClearFault(old(folder.files), temp, call)
    ensures folder.history == old(folder.history) || folder.history == old(folder.history) + [folder.files]
  {
    if temp in folder.files && folder.files[temp].File? {
      r := folder.Unlink(temp, call);
    } else if temp in folder.files {
      return FuseKitFault(NOT_REGULAR);
    } else {
      return Fine;
    }
  }

  /** What every moment of the copy looks like: the target is wholly old or wholly new, and
      nothing but the target and the temporary is touched. */
  ghost predicate OldOrNew(moment: Files, before: Files, target: string, content: string) {
    && SameElsewhere(moment, before, {target, TempOf(target)})
    && (At(moment, target) == At(before, target) || At(moment, target) == Some(File(content)))
  }

  /** A temporary that is in the way can be removed. */
  ghost predicate ClearWorks(before: Files, temp: string, call: Fault) {
    temp in before ==> before[temp].File? && call.Fine?
  }

  /** The fault of a clearing that does not work. */
  ghost function ClearFault(before: Files, temp: string, call: Fault): Fault {
    if At(before, temp) == Some(Directory) then FuseKitFault(NOT_REGULAR) else call
  }

  const NOT_REGULAR := "temporary path must be a regular file"

  /** Every step of the copy works. */
  ghost predicate CopyWorks(before: Files, target: string, calls: CopyCalls) {
    && ClearWorks(before, TempOf(target), calls.clear)
    && calls.openSource.Fine? && calls.write.Wrote? && calls.replace.Fine?
  }

  /** The first step that fails leaves a temporary, with this fault. */
  ghost function CopyLeaves(before: Files, target: string, calls: CopyCalls): Option<Fault> {
    if !ClearWorks(before, TempOf(target), calls.clear) then Some(ClearFault(before, TempOf(target), calls.clear))
    else if !calls.openSource.Fine? then None
    else if calls.write.WriteFailed? then if calls.write.created then Some(calls.write.fault) else None
    else if !calls.replace.Fine? then Some(calls.replace)
    else None
  }

  /** The temporary outlives the copy: a step leaves it with a fault that is no
      operating-system error, or the handler cannot remove it. */
  ghost predicate TempSurvivesCopy(before: Files, target: string, calls: CopyCalls) {
    var left := CopyLeaves(before, target, calls);
    left.Some? && (!left.value.OsFault? || !calls.cleanup.Fine?)
  }

  /** `_copy_file_atomically`. */
  method CopyFileAtomically(folder: Folder, source: string, target: string, calls: CopyCalls) returns (r: Fault)
    requires calls.Proper()
    modifies folder
    ensures |old(folder.history)| <= |folder.history|
    ensures forall i :: |old(folder.history)| <= i < |folder.history| ==>
              OldOrNew(folder.history[i], old(folder.files), target, source)
    // the copy is made exactly when every step works
    ensures r.Fine? <==> CopyWorks(old(folder.files), target, calls)
    ensures r.Fine? ==>
      && folder.files == (old(folder.files) - {TempOf(target)})[target := File(source)]
    ensures !r.Fine? ==> SameElsewhere(folder.files, old(folder.files), {TempOf(target)})
    // exactly when the temporary survives
    ensures TempOf(target) in folder.files <==> TempSurvivesCopy(old(folder.files), target, calls)
    ensures calls.OnlyOsErrors() && old(At(folder.files, TempOf(target))) != Some(Directory) && calls.cleanup.Fine? ==>
      TempOf(target) !in folder.files && (r.Fine? || r.FuseKitFault?)
  {
    TempsAreApart(target, target);
    var temp := TempOf(target);
    r := CopyBody(folder, source, target, calls);
    if r.OsFault? {
      if temp in folder.files {
        r := folder.Unlink(temp, calls.cleanup);
        if !r.Fine? {
          return;
        }
      }
      return FuseKitFault("could not be attached");
    }
  }

  /** The guarded part of the copy. */
  method CopyBody(folder: Folder, source: string, target: string, calls: CopyCalls) returns (r: Fault)
    requires calls.Proper()
    modifies folder
    ensures |old(folder.history)| <= |folder.history|
    ensures forall i :: |old(folder.history)| <= i < |folder.history| ==>
              OldOrNew(folder.history[i], old(folder.files), target, source)
    ensures r.Fine? <==> CopyWorks(old(folder.files), target, calls)
    ensures r.Fine? ==>
      && folder.files == (old(folder.files) - {TempOf(target)})[target := File(source)]
    ensures !r.Fine? ==> SameElsewhere(folder.files, old(folder.files), {TempOf(target)})
    ensures TempOf(target) in folder.files <==> CopyLeaves(old(folder.files), target, calls).Some?
    ensures TempOf(target) in folder.files ==> r == CopyLeaves(old(folder.files), target, calls).value
    ensures r.OsFault? && TempOf(target) in folder.files ==> folder.files[TempOf(target)].File?
    ensures calls.OnlyOsErrors() && old(At(folder.files, TempOf(target))) != Some(Directory) ==> r.Fine? || r.OsFault?
  {
    TempsAreApart(target, target);
    hide TempOf;
    var temp := TempOf(target);
    r := ClearTemp(folder, temp, calls.clear);
    if !r.Fine? {
      return;
    }
    r := calls.openSource;
    if !r.Fine? {
      return;
    }
    r := folder.Write(temp, source, calls.write);
    if !r.Fine? {
      return;
    }
    r := folder.Replace(temp, target, calls.replace);
  }

  // ------------------------------------------------------- three files

  const JOB := "job.json"
  const CHECKPOINTS := "checkpoints.json"
  const RUN_RECORD := "run_record.json"

  const TARGETS: seq<string> := [JOB, CHECKPOINTS, RUN_RECORD]
  const TEMPS: seq<string> := [TempOf(JOB), TempOf(CHECKPOINTS), TempOf(RUN_RECORD)]

  lemma NamesAreApart()
    ensures forall i, j :: 0 <= i < 3 && 0 <= j < 3 ==> TARGETS[i] != TEMPS[j]
    ensures forall i, j :: 0 <= i < j < 3 ==> TARGETS[i] != TARGETS[j] && TEMPS[i] != TEMPS[j]
  {
    assert |JOB| == 8 && |CHECKPOINTS| == 16 && |RUN_RECORD| == 15;
    assert TempOf(JOB)[0] == '.' && TempOf(CHECKPOINTS)[0] == '.' && TempOf(RUN_RECORD)[0] == '.';
    assert |TempOf(JOB)| == 13 && |TempOf(CHECKPOINTS)| == 21 && |TempOf(RUN_RECORD)| == 20;
  }

  datatype RefreshCalls = RefreshCalls(
    clear: seq<Fault>, write: seq<WriteCall>, replace: seq<Fault>, cleanup: seq<Fault>)
  {
    predicate Proper() {
      && |clear| == 3 && |write| == 3 && |replace| == 3 && |cleanup| == 3
      && forall i :: 0 <= i < 3 && write[i].WriteFailed? ==> !write[i].fault.Fine?
    }

    predicate OnlyOsErrors()
      requires Proper()
    {
      forall i :: 0 <= i < 3 ==>
        && (clear[i].Fine? || clear[i].OsFault?) && (replace[i].Fine? || replace[i].OsFault?)
        && (cleanup[i].Fine? || cleanup[i].OsFault?) && (write[i].WriteFailed? ==> write[i].fault.OsFault?)
    }
  }

  /** The first `k` targets hold their new content, the others what they held before, and
      only targets and temporaries are touched. */
  ghost predicate Published(moment: Files, before: Files, contents: seq<string>, k: int)
    requires |contents| == 3
  {
    && 0 <= k <= 3
    && (forall i :: 0 <= i < 3 ==>
          At(moment, TARGETS[i]) == if i < k then Some(File(contents[i])) else At(before, TARGETS[i]))
    && (forall n :: n !in TARGETS && n !in TEMPS ==> At(moment, n) == At(before, n))
  }

  ghost predicate PrefixPublished(moment: Files, before: Files, contents: seq<string>)
    requires |contents| == 3
  {
    exists k :: Published(moment, before, contents, k)
  }

  /** Every moment since the start shows a published prefix. */
  ghost predicate AlwaysPrefix(history: seq<Files>, from: nat, before: Files, contents: seq<string>)
    requires |contents| == 3
  {
    from <= |history| && forall i :: from <= i < |history| ==> PrefixPublished(history[i], before, contents)
  }

  ghost predicate NoDirectoryAmongTemps(files: Files) {
    forall i :: 0 <= i < 3 ==> At(files, TEMPS[i]) != Some(Directory)
  }

  // The refresh takes nine steps: it clears three temporaries, writes them, and puts them in
  // place.

  /** Step `n` works, given that the steps before it did. */
  ghost predicate StepWorks(before: Files, calls: RefreshCalls, n: nat)
    requires calls.Proper() && n < 9
  {
    if n < 3 then ClearWorks(before, TEMPS[n], calls.clear[n])
    else if n < 6 then calls.write[n - 3].Wrote?
    else calls.replace[n - 6].Fine?
  }

  ghost function StepFault(before: Files, calls: RefreshCalls, n: nat): Fault
    requires calls.Proper() && n < 9
  {
    if n < 3 then ClearFault(before, TEMPS[n], calls.clear[n])
    else if n < 6 then if calls.write[n - 3].WriteFailed? then calls.write[n - 3].fault else Fine
    else calls.replace[n - 6]
  }

  /** The first step from `n` on that does not work; nine when all do. */
  ghost function FirstFailure(before: Files, calls: RefreshCalls, n: nat): (stop: nat)
    requires calls.Proper() && n <= 9
    ensures n <= stop <= 9
    ensures forall m :: n <= m < stop ==> StepWorks(before, calls, m)
    ensures stop < 9 ==> !StepWorks(before, calls, stop)
    decreases 9 - n
  {
    if n == 9 || !StepWorks(before, calls, n) then n else FirstFailure(before, calls, n + 1)
  }

  /** What the temporary `j` is when step `n` is reached. */
  ghost function TempBefore(before: Files, contents: seq<string>, j: nat, n: nat): Option<Node>
    requires |contents| == 3 && j < 3 && n <= 9
  {
    if n <= 3 then if j < n then None else At(before, TEMPS[j])
    else if n <= 6 then if j < n - 3 then Some(File(contents[j])) else None
    else if j < n - 6 then None else Some(File(contents[j]))
  }

  /** What it is when step `n` failed. */
  ghost function TempAfterFailure(before: Files, contents: seq<string>, calls: RefreshCalls, j: nat,
      n: nat): Option<Node>
    requires |contents| == 3 && calls.Proper() && j < 3 && n <= 9
  {
    if 3 <= n < 6 && j == n - 3 && calls.write[j].WriteFailed? then
      if calls.write[j].created then Some(File(calls.write[j].torn)) else None
    else TempBefore(before, contents, j, n)
  }

  /** How many of the three files are new when step `n` is reached. */
  function PublishedBy(n: nat): nat { if n < 6 then 0 else n - 6 }

  /** The temporaries are as step `n` finds them. */
  ghost predicate Reached(files: Files, before: Files, contents: seq<string>, n: nat)
    requires |contents| == 3 && n <= 9
  {
    && Published(files, before, contents, PublishedBy(n))
    && forall j :: 0 <= j < 3 ==> At(files, TEMPS[j]) == TempBefore(before, contents, j, n)
  }

  /** The temporaries are as the failure of step `n` leaves them. */
  ghost predicate Stopped(files: Files, before: Files, contents: seq<string>, calls: RefreshCalls, n: nat)
    requires |contents| == 3 && calls.Proper() && n <= 9
  {
    && Published(files, before, contents, PublishedBy(n))
    && forall j :: 0 <= j < 3 ==> At(files, TEMPS[j]) == TempAfterFailure(before, contents, calls, j, n)
  }

  /** The handler cannot remove the temporary `j`. */
  ghost predicate SweepFailsAt(before: Files, contents: seq<string>, calls: RefreshCalls, j: nat, n: nat)
    requires |contents| == 3 && calls.Proper() && j < 3 && n <= 9
  {
    var left := TempAfterFailure(before, contents, calls, j, n);
    left.Some? && (left.value.Directory? || !calls.cleanup[j].Fine?)
  }

  /** The temporary `i` outlives the refresh: the failure leaves it, and its fault is no
      operating-system error, or the handler fails at it or before it. */
  ghost predicate TempSurvives(before: Files, contents: seq<string>, calls: RefreshCalls, i: nat)
    requires |contents| == 3 && calls.Proper() && i < 3
  {
    var n := FirstFailure(before, calls, 0);
    && n < 9 && TempAfterFailure(before, contents, calls, i, n).Some?
    && (!StepFault(before, calls, n).OsFault? || exists j :: 0 <= j <= i && SweepFailsAt(before, contents, calls, j, n))
  }

  /** Whatever fails is an operating-system error, and the handler can unlink. */
  ghost predicate Handled(before: Files, calls: RefreshCalls)
    requires calls.Proper()
  {
    calls.OnlyOsErrors() && NoDirectoryAmongTemps(before) && forall i :: 0 <= i < 3 ==> calls.cleanup[i].Fine?
  }

  /** The writes of `_refresh_remote_detonation_run_record`: the new job state, its
      checkpoints and the run record, in that order. */
  method RefreshThree(folder: Folder, contents: seq<string>, calls: RefreshCalls) returns (r: Fault)
    requires |contents| == 3 && calls.Proper()
    modifies folder
    ensures AlwaysPrefix(folder.history, |old(folder.history)|, old(folder.files), contents)
    // success, and the prefix that is new, are settled by the first step that fails
    ensures r.Fine? <==> FirstFailure(old(folder.files), calls, 0) == 9
    ensures Published(folder.files, old(folder.files), contents, PublishedBy(FirstFailure(old(folder.files), calls, 0)))
    // exactly the temporaries that survive
    ensures forall i :: 0 <= i < 3 ==>
              (TEMPS[i] in folder.files <==> TempSurvives(old(folder.files), contents, calls, i))
    // none survives a handled failure
    ensures Handled(old(folder.files), calls) ==>
      && (r.Fine? || r.FuseKitFault?) && forall i :: 0 <= i < 3 ==> TEMPS[i] !in folder.files
  {
    hide AlwaysPrefix, Published, TempOf, StepWorks, StepFault, TempAfterFailure, TempBefore, TempSurvives,
      FirstFailure, Stuck, Stopped;
    ghost var before, from := folder.files, |folder.history|;
    ghost var stop := FirstFailure(before, calls, 0);
    r := RefreshBody(folder, contents, calls);
    ghost var mid := folder.files;
    HandledFailure(mid, before, contents, calls);
    if r.OsFault? {
      r := Sweep(folder, contents, before, from, PublishedBy(stop), calls);
      SweptExactly(folder.files, mid, before, contents, calls);
      if !r.Fine? {
        return;
      }
      return FuseKitFault("Final Run Record proof could not be attached.");
    }
    UnsweptExactly(mid, before, contents, calls);
  }

  /** A temporary that is there and that the handler cannot remove. */
  ghost predicate Stuck(files: Files, calls: RefreshCalls, j: nat)
    requires calls.Proper() && j < 3
  {
    TEMPS[j] in files && (files[TEMPS[j]].Directory? || !calls.cleanup[j].Fine?)
  }

  /** What the sweep leaves: everything from the first temporary it cannot remove. */
  ghost predicate SweptFrom(after: Files, mid: Files, calls: RefreshCalls)
    requires calls.Proper()
  {
    forall i :: 0 <= i < 3 ==>
      (TEMPS[i] in after <==> TEMPS[i] in mid && exists j :: 0 <= j <= i && Stuck(mid, calls, j))
  }

  lemma SweptExactly(after: Files, mid: Files, before: Files, contents: seq<string>, calls: RefreshCalls)
    requires |contents| == 3 && calls.Proper() && SweptFrom(after, mid, calls)
    requires var n := FirstFailure(before, calls, 0);
             n < 9 && Stopped(mid, before, contents, calls, n) && StepFault(before, calls, n).OsFault?
    ensures forall i :: 0 <= i < 3 ==> (TEMPS[i] in after <==> TempSurvives(before, contents, calls, i))
  {
    hide Published, StepFault, FirstFailure, TempAfterFailure, TempOf;
    var n := FirstFailure(before, calls, 0);
    forall j | 0 <= j < 3
      ensures Stuck(mid, calls, j) <==> SweepFailsAt(before, contents, calls, j, n)
      ensures TEMPS[j] in mid <==> TempAfterFailure(before, contents, calls, j, n).Some?
    {
      assert At(mid, TEMPS[j]) == TempAfterFailure(before, contents, calls, j, n);
    }
  }

  lemma UnsweptExactly(mid: Files, before: Files, contents: seq<string>, calls: RefreshCalls)
    requires |contents| == 3 && calls.Proper()
    requires var n := FirstFailure(before, calls, 0);
             Stopped(mid, before, contents, calls, n) && (n < 9 ==> !StepFault(before, calls, n).OsFault?)
    ensures forall i :: 0 <= i < 3 ==> (TEMPS[i] in mid <==> TempSurvives(before, contents, calls, i))
  {
    hide Published, StepFault, FirstFailure, TempOf;
    var n := FirstFailure(before, calls, 0);
    forall i | 0 <= i < 3 ensures TEMPS[i] in mid <==> TempSurvives(before, contents, calls, i) {
      assert At(mid, TEMPS[i]) == TempAfterFailure(before, contents, calls, i, n);
    }
  }

  /** With operating-system errors alone and a handler that can unlink, the handler runs and
      nothing is stuck. */
  lemma HandledFailure(mid: Files, before: Files, contents: seq<string>, calls: RefreshCalls)
    requires |contents| == 3 && calls.Proper()
    requires Stopped(mid, before, contents, calls, FirstFailure(before, calls, 0))
    ensures Handled(before, calls) ==>
      && (forall j :: 0 <= j < 3 ==> !Stuck(mid, calls, j))
      && (FirstFailure(before, calls, 0) < 9 ==> StepFault(before, calls, FirstFailure(before, calls, 0)).OsFault?)
      && forall i :: 0 <= i < 3 ==> !TempSurvives(before, contents, calls, i)
  {
    hide Published, TempOf;
    var n := FirstFailure(before, calls, 0);
    if Handled(before, calls) {
      forall j | 0 <= j < 3 ensures !Stuck(mid, calls, j) && !SweepFailsAt(before, contents, calls, j, n) {
        assert At(mid, TEMPS[j]) == TempAfterFailure(before, contents, calls, j, n);
        assert At(before, TEMPS[j]) != Some(Directory);
      }
      if n < 9 {
        assert !StepWorks(before, calls, n);
      }
    }
  }

  /** The handler: remove every temporary that is left. */
  method Sweep(folder: Folder, contents: seq<string>, ghost before: Files, ghost from: nat, ghost k: nat,
      calls: RefreshCalls)
    returns (r: Fault)
    requires |contents| == 3 && calls.Proper()
    requires AlwaysPrefix(folder.history, from, before, contents) && Published(folder.files, before, contents, k)
    modifies folder
    ensures AlwaysPrefix(folder.history, from, before, contents) && Published(folder.files, before, contents, k)
    ensures r.Fine? <==> forall j :: 0 <= j < 3 ==> !Stuck(old(folder.files), calls, j)
    ensures SweptFrom(folder.files, old(folder.files), calls)
  {
    hide TempOf, Published, AlwaysPrefix;
    NamesAreApart();
    ghost var mid := folder.files;
    for i := 0 to 3
      invariant AlwaysPrefix(folder.history, from, before, contents) && Published(folder.files, before, contents, k)
      invariant forall j :: 0 <= j < i ==> TEMPS[j] !in folder.files && !Stuck(mid, calls, j)
      invariant forall j :: i <= j < 3 ==> At(folder.files, TEMPS[j]) == At(mid, TEMPS[j])
    {
      assert At(folder.files, TEMPS[i]) == At(mid, TEMPS[i]);
      if TEMPS[i] in folder.files {
        ghost var start, past := folder.files, folder.history;
        r := folder.Unlink(TEMPS[i], calls.cleanup[i]);
        OnlyATempChanged(folder.files, start, before, contents, k, i);
        HistoryGrows(past, [folder.files], from, before, contents, k);
        if !r.Fine? {
          assert Stuck(mid, calls, i);
          assert forall j :: 0 <= j < 3 ==> (TEMPS[j] in folder.files <==> j >= i && TEMPS[j] in mid) by {
            assert forall j :: i <= j < 3 ==> At(folder.files, TEMPS[j]) == At(mid, TEMPS[j]);
          }
          return;
        }
      }
    }
    return Fine;
  }

  lemma OnlyATempChanged(files: Files, start: Files, before: Files, contents: seq<string>, k: nat, i: nat)
    requires |contents| == 3 && i < 3 && Published(start, before, contents, k)
    requires SameElsewhere(files, start, {TEMPS[i]})
    ensures Published(files, before, contents, k)
  {
    hide TempOf;
    NamesAreApart();
    assert TEMPS[i] in TEMPS;
  }

  lemma HistoryGrows(past: seq<Files>, more: seq<Files>, from: nat, before: Files, contents: seq<string>, k: nat)
    requires |contents| == 3 && AlwaysPrefix(past, from, before, contents)
    requires forall i :: 0 <= i < |more| ==> Published(more[i], before, contents, k)
    ensures AlwaysPrefix(past + more, from, before, contents)
  {
    hide Published;
    forall i | from <= i < |past + more| ensures PrefixPublished((past + more)[i], before, contents) {
      if i >= |past| {
        assert Published(more[i - |past|], before, contents, k);
      }
    }
  }

  /** The guarded part of the refresh. */
  method RefreshBody(folder: Folder, contents: seq<string>, calls: RefreshCalls) returns (r: Fault)
    requires |contents| == 3 && calls.Proper()
    modifies folder
    ensures AlwaysPrefix(folder.history, |old(folder.history)|, old(folder.files), contents)
    ensures var stop := FirstFailure(old(folder.files), calls, 0);
            && (r.Fine? <==> stop == 9)
            && (stop < 9 ==> r == StepFault(old(folder.files), calls, stop))
            && Stopped(folder.files, old(folder.files), contents, calls, stop)
            && Published(folder.files, old(folder.files), contents, PublishedBy(stop))
  {
    hide AlwaysPrefix, Published, TempOf, StepWorks, StepFault, Stopped, Reached;
    ghost var before, from := folder.files, |folder.history|;
    StartsReached(folder.history, before, contents);
    r := ClearOne(folder, contents, before, from, 0, calls);
    if !r.Fine? { return; }
    r := ClearOne(folder, contents, before, from, 1, calls);
    if !r.Fine? { return; }
    r := ClearOne(folder, contents, before, from, 2, calls);
    if !r.Fine? { return; }
    r := WriteOne(folder, contents, before, from, 0, calls);
    if !r.Fine? { return; }
    r := WriteOne(folder, contents, before, from, 1, calls);
    if !r.Fine? { return; }
    r := WriteOne(folder, contents, before, from, 2, calls);
    if !r.Fine? { return; }
    r := ReplaceOne(folder, contents, before, from, 0, calls);
    if !r.Fine? { return; }
    r := ReplaceOne(folder, contents, before, from, 1, calls);
    if !r.Fine? { return; }
    r := ReplaceOne(folder, contents, before, from, 2, calls);
    if !r.Fine? { return; }
    EndsStopped(folder.files, before, contents, calls);
  }

  lemma StartsReached(history: seq<Files>, before: Files, contents: seq<string>)
    requires |contents| == 3
    ensures AlwaysPrefix(history, |history|, before, contents) && Reached(before, before, contents, 0)
  {
  }

  lemma EndsStopped(files: Files, before: Files, contents: seq<string>, calls: RefreshCalls)
    requires |contents| == 3 && calls.Proper() && Reached(files, before, contents, 9)
    ensures Stopped(files, before, contents, calls, 9) && Published(files, before, contents, PublishedBy(9))
  {
    hide Published;
  }

  /** What one step promises: on to the next, or stopped here with its fault. */
  ghost predicate Stepped(r: Fault, files: Files, before: Files, contents: seq<string>, calls: RefreshCalls, n: nat)
    requires |contents| == 3 && calls.Proper() && n < 9
  {
    && (r.Fine? <==> StepWorks(before, calls, n))
    && (r.Fine? ==> Reached(files, before, contents, n + 1))
    && (!r.Fine? ==>
          && r == StepFault(before, calls, n) && Stopped(files, before, contents, calls, n)
          && Published(files, before, contents, PublishedBy(n)))
  }

  method ClearOne(folder: Folder, contents: seq<string>, ghost before: Files, ghost from: nat, i: nat,
      calls: RefreshCalls)
    returns (r: Fault)
    requires |contents| == 3 && calls.Proper() && i < 3
    requires AlwaysPrefix(folder.history, from, before, contents) && Reached(folder.files, before, contents, i)
    modifies folder
    ensures AlwaysPrefix(folder.history, from, before, contents)
    ensures Stepped(r, folder.files, before, contents, calls, i)
  {
    hide TempOf, Published, AlwaysPrefix, SameElsewhere;
    NamesAreApart();
    ghost var start, past := folder.files, folder.history;
    assert At(start, TEMPS[i]) == At(before, TEMPS[i]);
    r := ClearTemp(folder, TEMPS[i], calls.clear[i]);
    assert SameElsewhere(folder.files, start, {TEMPS[i]}) by { OneNameGone(folder.files, start, TEMPS[i]); }
    OnlyATempChanged(folder.files, start, before, contents, 0, i);
    HistoryGrows(past, [folder.files], from, before, contents, 0);
    if r.Fine? {
      assert forall j :: 0 <= j < 3 && j != i ==> At(folder.files, TEMPS[j]) == At(start, TEMPS[j]);
    }
  }

  lemma OneNameGone(files: Files, start: Files, name: string)
    requires files == start || files == start - {name}
    ensures SameElsewhere(files, start, {name})
  {
  }

  method WriteOne(folder: Folder, contents: seq<string>, ghost before: Files, ghost from: nat, i: nat,
      calls: RefreshCalls)
    returns (r: Fault)
    requires |contents| == 3 && calls.Proper() && i < 3
    requires AlwaysPrefix(folder.history, from, before, contents) && Reached(folder.files, before, contents, i + 3)
    modifies folder
    ensures AlwaysPrefix(folder.history, from, before, contents)
    ensures Stepped(r, folder.files, before, contents, calls, i + 3)
  {
    hide TempOf, Published, AlwaysPrefix, SameElsewhere;
    NamesAreApart();
    ghost var start, past := folder.files, folder.history;
    ghost var torn := start[TEMPS[i] := File(calls.write[i].torn)];
    r := folder.Write(TEMPS[i], contents[i], calls.write[i]);
    OneNameWritten(torn, start, TEMPS[i], calls.write[i].torn);
    OneNameWritten(folder.files, start, TEMPS[i], if r.Fine? then contents[i] else calls.write[i].torn);
    OnlyATempChanged(torn, start, before, contents, 0, i);
    OnlyATempChanged(folder.files, start, before, contents, 0, i);
    HistoryGrows(past, if r.Fine? then [torn, folder.files] else [folder.files], from, before, contents, 0);
    assert forall j :: 0 <= j < 3 && j != i ==> At(folder.files, TEMPS[j]) == At(start, TEMPS[j]);
  }

  lemma OneNameWritten(files: Files, start: Files, name: string, content: string)
    requires files == start || files == start[name := File(content)]
    ensures SameElsewhere(files, start, {name})
  {
  }

  method ReplaceOne(folder: Folder, contents: seq<string>, ghost before: Files, ghost from: nat, i: nat,
      calls: RefreshCalls)
    returns (r: Fault)
    requires |contents| == 3 && calls.Proper() && i < 3
    requires AlwaysPrefix(folder.history, from, before, contents) && Reached(folder.files, before, contents, i + 6)
    modifies folder
    ensures AlwaysPrefix(folder.history, from, before, contents)
    ensures Stepped(r, folder.files, before, contents, calls, i + 6)
  {
    hide TempOf, AlwaysPrefix, Published;
    NamesAreApart();
    ghost var start, past := folder.files, folder.history;
    assert At(start, TEMPS[i]) == Some(File(contents[i]));
    r := folder.Replace(TEMPS[i], TARGETS[i], calls.replace[i]);
    OneMorePublished(start, before, contents, i);
    HistoryGrows(past, [folder.files], from, before, contents, if r.Fine? then i + 1 else i);
    assert forall j :: 0 <= j < 3 && j != i ==> At(folder.files, TEMPS[j]) == At(start, TEMPS[j]);
  }

  lemma OneMorePublished(start: Files, before: Files, contents: seq<string>, i: nat)
    requires |contents| == 3 && i < 3 && Published(start, before, contents, i)
    requires At(start, TEMPS[i]) == Some(File(contents[i]))
    ensures Published((start - {TEMPS[i]})[TARGETS[i] := start[TEMPS[i]]], before, contents, i + 1)
  {
    hide TempOf;
    NamesAreApart();
    assert TEMPS[i] in TEMPS && TARGETS[i] in TARGETS;
  }

  /** An exception that is no operating-system error is not handled: interrupted between the
      writes and the first replacement, the refresh leaves all three temporaries. */
  method InterruptedRefresh(folder: Folder, contents: seq<string>)
    requires |contents| == 3 && forall i :: 0 <= i < 3 ==> TEMPS[i] !in folder.files
    modifies folder
    ensures forall i :: 0 <= i < 3 ==> TEMPS[i] in folder.files
  {
    var wrote := Wrote("");
    var calls := RefreshCalls([Fine, Fine, Fine], [wrote, wrote, wrote], [OtherFault, Fine, Fine], [Fine, Fine, Fine]);
    hide TempOf, AlwaysPrefix, Published;
    ghost var before := folder.files;
    StopsAt(before, calls, 6);
    var _ := RefreshThree(folder, contents, calls);
  }

  lemma StopsAt(before: Files, calls: RefreshCalls, n: nat)
    requires calls.Proper() && n < 9
    requires (forall m :: 0 <= m < n ==> StepWorks(before, calls, m)) && !StepWorks(before, calls, n)
    ensures FirstFailure(before, calls, 0) == n
  {
    hide StepWorks;
  }
}
