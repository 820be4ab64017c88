/** Accounting for the destruction of one disposable worker (cli.py): what the cleanup
    calls returned, whether that proves the worker is gone, and the receipt that says so. */
module Teardown {
  import opened Json
  import opened Outcomes
  import opened Text

  const CLEANUP_SCHEMA := "fusekit.remote-worker-cleanup.v1"

  const PROCESS_PATTERNS: seq<string> := [
    "[f]usekit control-room --serve",
    "[o]penclaw gateway run.*19002",
    "[c]hrome-linux.*/chrome",
    "[w]ebsockify.*6080",
    "[x]11vnc.*5900",
    "[X]vfb :99",
    "[f]luxbox"
  ]

  const PATH_TARGETS: seq<string> := [
    "/var/lib/fusekit-runner/app",
    "/var/lib/fusekit-runner/tmp",
    "/var/lib/fusekit-runner/openclaw-state",
    "/var/lib/fusekit-runner/passphrase",
    "/var/lib/fusekit-runner/app.tar.gz",
    "/var/lib/fusekit-runner/visual",
    "/var/lib/fusekit-runner/control-room.log",
    "/var/lib/fusekit-runner/openclaw-gateway.log"
  ]

  const NETWORK_RESOURCES: set<string> := {
    "subnet", "route_table", "internet_gateway", "network_security_group", "security_list", "vcn"
  }

  /** The `remote_deleted` dictionary. */
  type Report = map<string, Value>

  /** `detonate_remote_worker`. */
  datatype CleanupCall = CleanupReturned(proof: Value) | CleanupRaised(fault: Fault)

  /** `OciProvisioner(...).detonate(workspace)`; `gone` says whether the instance was
      destroyed, which the report may leave unsaid. */
  datatype CloudCall =
    | CloudReturned(deleted: map<string, string>, gone: bool)
    | CloudRaised(fault: Fault, gone: bool)
  {
    /** What OCI promises: an instance that is reported deleted is deleted. */
    predicate Truthful() {
      && (CloudReturned? && "instance" in deleted ==> gone)
      && (CloudRaised? ==> !fault.Fine?)
    }
  }

  datatype TeardownCalls = TeardownCalls(cleanup: CleanupCall, cloud: CloudCall) {
    predicate Truthful() {
      cloud.Truthful() && (cleanup.CleanupRaised? ==> !cleanup.fault.Fine?)
    }

    /** The cloud teardown is attempted unless the cleanup broke off unexpectedly. */
    predicate Attempted() {
      !(cleanup.CleanupRaised? && !cleanup.fault.FuseKitFault?)
    }

    /** No exception other than FuseKit's own escapes from the two calls. */
    predicate Returns() {
      Attempted() && !(cloud.CloudRaised? && !cloud.fault.FuseKitFault?)
    }

    predicate Destroys() { Attempted() && cloud.gone }
  }

  predicate IsFailureKey(key: string) { StartsWith(key, "failed.") }

  predicate AllSurfacesDeleted(keys: set<string>) {
    && "instance" in keys && "boot_volume" in keys && "ephemeral_public_ip" in keys
    && NETWORK_RESOURCES <= keys
  }

  function DeletedKeys(report: Report): (r: set<string>)
    ensures r <= report.Keys
  {
    set key | key in report && !IsFailureKey(key)
  }

  predicate WorkspaceCloudResourcesDeleted(report: Report) {
    && (forall key :: key in report && IsFailureKey(key) ==> key == "failed.remote_worker")
    && AllSurfacesDeleted(DeletedKeys(report))
  }

  // ------------------------------------------------------- the worker's own cleanup proof

  function StringList(v: Value, show: Value -> string): seq<string> {
    if v.Arr? then seq(|v.items|, i requires 0 <= i < |v.items| => TextOf(v.items[i], show)) else []
  }

  ghost predicate Repeats(values: seq<string>) {
    exists i, j :: 0 <= i < j < |values| && Strip(values[i]) == Strip(values[j]) != ""
  }

  method HasDuplicateStrings(values: seq<string>) returns (duplicate: bool)
    ensures duplicate <==> Repeats(values)
  {
    var seen: set<string> := {};
    for n := 0 to |values|
      invariant !Repeats(values[..n])
      invariant forall text :: text in seen <==> exists i :: 0 <= i < n && text == Strip(values[i]) != ""
    {
      var text := Strip(values[n]);
      if text == "" {
        continue;
      }
      if text in seen {
        return true;
      }
      seen := seen + {text};
    }
    assert values[..|values|] == values;
    return false;
  }

  ghost predicate CleanupComplete(v: Value, show: Value -> string) {
    && v.Obj?
    && var patterns := StringList(Get(v.fields, "process_patterns", Null), show);
       var paths := StringList(Get(v.fields, "paths", Null), show);
       && TextField(v.fields, "schema_version", "", show) == CLEANUP_SCHEMA
       && TextField(v.fields, "status", "", show) == "detonated"
       && Get(v.fields, "host_machine_state_required", Null) == Bool(false)
       && !Repeats(patterns) && !Repeats(paths)
       && (forall p :: p in PROCESS_PATTERNS ==> p in patterns)
       && (forall p :: p in PATH_TARGETS ==> p in paths)
  }

  function Texts(values: seq<string>): Value {
    Arr(seq(|values|, i requires 0 <= i < |values| => Str(values[i])))
  }

  /** `remote_worker_cleanup_proof()`. */
  function CleanupProof(): Value {
    Obj(map[
      "schema_version" := Str(CLEANUP_SCHEMA),
      "status" := Str("detonated"),
      "process_patterns" := Texts(PROCESS_PATTERNS),
      "paths" := Texts(PATH_TARGETS),
      "host_machine_state_required" := Bool(false)
    ])
  }

  lemma TextsReadBack(values: seq<string>, show: Value -> string)
    ensures StringList(Texts(values), show) == values
  {
  }

  lemma DistinctTrimmedTextsDoNotRepeat(values: seq<string>)
    requires forall i :: 0 <= i < |values| ==> Trimmed(values[i])
    requires forall i, j :: 0 <= i < j < |values| ==> values[i] != values[j]
    ensures !Repeats(values)
  {
    forall i | 0 <= i < |values| ensures Strip(values[i]) == values[i] {
      StripTrimmed(values[i]);
    }
  }

  lemma PathIsTrimmed(i: nat)
    requires i < |PATH_TARGETS|
    ensures Trimmed(PATH_TARGETS[i]) && PATH_TARGETS[i] != ""
  {
    var path := PATH_TARGETS[i];
    assert path[0] == '/';
    assert path[|path| - 1] in {'p', 'e', 'z', 'l', 'g'};
  }

  lemma CleanupProofIsComplete(show: Value -> string)
    ensures CleanupComplete(CleanupProof(), show)
  {
    PatternsDoNotRepeat();
    PathsDoNotRepeat();
    TextsReadBack(PROCESS_PATTERNS, show);
    TextsReadBack(PATH_TARGETS, show);
    hide PROCESS_PATTERNS, PATH_TARGETS, StringList, Texts, Repeats;
  }

  lemma PatternsDoNotRepeat()
    ensures !Repeats(PROCESS_PATTERNS)
  {
    forall i | 0 <= i < |PROCESS_PATTERNS| ensures Trimmed(PROCESS_PATTERNS[i]) {
      PatternIsTrimmed(i);
    }
    hide Trimmed, Repeats;
    DistinctTrimmedTextsDoNotRepeat(PROCESS_PATTERNS);
  }

  lemma PathsDoNotRepeat()
    ensures !Repeats(PATH_TARGETS)
  {
    forall i | 0 <= i < |PATH_TARGETS| ensures Trimmed(PATH_TARGETS[i]) {
      PathIsTrimmed(i);
    }
    hide Trimmed, Repeats;
    DistinctTrimmedTextsDoNotRepeat(PATH_TARGETS);
  }

  /** `p` stands in the list exactly once, white space around the entries aside. */
  ghost predicate OnceIn(values: seq<string>, p: string) {
    exists i :: 0 <= i < |values| && values[i] == p && forall j :: 0 <= j < |values| && Strip(values[j]) == p ==> j == i
  }

  /** A complete proof names every process and every path that must be gone, each exactly once. */
  lemma CompleteProofNamesEachOnce(v: Value, show: Value -> string)
    requires CleanupComplete(v, show)
    ensures forall p :: p in PROCESS_PATTERNS ==> OnceIn(StringList(Get(v.fields, "process_patterns", Null), show), p)
    ensures forall p :: p in PATH_TARGETS ==> OnceIn(StringList(Get(v.fields, "paths", Null), show), p)
  {
    var patterns := StringList(Get(v.fields, "process_patterns", Null), show);
    var paths := StringList(Get(v.fields, "paths", Null), show);
    forall k | 0 <= k < |PROCESS_PATTERNS| ensures OnceIn(patterns, PROCESS_PATTERNS[k]) {
      PatternIsTrimmed(k);
      ListedOnce(patterns, PROCESS_PATTERNS[k]);
    }
    forall k | 0 <= k < |PATH_TARGETS| ensures OnceIn(paths, PATH_TARGETS[k]) {
      PathIsTrimmed(k);
      ListedOnce(paths, PATH_TARGETS[k]);
    }
  }

  lemma ListedOnce(values: seq<string>, p: string)
    requires !Repeats(values) && p in values && Trimmed(p) && p != ""
    ensures OnceIn(values, p)
  {
    StripTrimmed(p);
    hide Strip;
    var i :| 0 <= i < |values| && values[i] == p;
    assert forall j :: 0 <= j < |values| && Strip(values[j]) == p ==> j == i;
  }

  lemma PatternIsTrimmed(i: nat)
    requires i < |PROCESS_PATTERNS|
    ensures Trimmed(PROCESS_PATTERNS[i]) && PROCESS_PATTERNS[i] != ""
  {
    var pattern := PROCESS_PATTERNS[i];
    assert pattern[0] == '[';
    assert pattern[|pattern| - 1] in {'e', '2', '0', '9', 'x'};
  }

  // ------------------------------------------------------- completeness

  ghost function MissingResources(report: Report, show: Value -> string): seq<string> {
    var deleted := DeletedKeys(report);
    When("remote_worker" !in deleted || !CleanupComplete(report["remote_worker"], show), "remote_worker")
    + When("instance" !in deleted, "compute_instance")
    + When("boot_volume" !in deleted, "boot_volume")
    + When("ephemeral_public_ip" !in deleted, "ephemeral_public_ip")
    + When(NETWORK_RESOURCES - deleted != {}, "network_resources")
  }

  function When(b: bool, name: string): seq<string> { if b then [name] else [] }

  /** No call failed and nothing is missing. */
  ghost predicate Complete(report: Report, show: Value -> string) {
    && (forall key :: key in report ==> !IsFailureKey(key))
    && MissingResources(report, show) == []
  }

  method RemoteWorkerCleanupComplete(v: Value, show: Value -> string) returns (complete: bool)
    ensures complete <==> CleanupComplete(v, show)
  {
    if !v.Obj? {
      return false;
    }
    var patterns := StringList(Get(v.fields, "process_patterns", Null), show);
    var paths := StringList(Get(v.fields, "paths", Null), show);
    var repeatedPatterns := HasDuplicateStrings(patterns);
    var repeatedPaths := HasDuplicateStrings(paths);
    return && TextField(v.fields, "schema_version", "", show) == CLEANUP_SCHEMA
           && TextField(v.fields, "status", "", show) == "detonated"
           && Get(v.fields, "host_machine_state_required", Null) == Bool(false)
           && !repeatedPatterns && !repeatedPaths
           && (forall p :: p in PROCESS_PATTERNS ==> p in patterns)
           && (forall p :: p in PATH_TARGETS ==> p in paths);
  }

  /** The keys that prove the deletion of each cloud resource. */
  const PROOFS: map<string, set<string>> := map[
    "compute_instance" := {"instance"},
    "boot_volume" := {"boot_volume"},
    "ephemeral_public_ip" := {"ephemeral_public_ip"},
    "network_resources" :=
      {"subnet", "route_table", "internet_gateway", "network_security_group", "security_list", "vcn"}
  ]

  /** `_workspace_detonation_missing_resources`: exactly the resources without deletion proof. */
  method WorkspaceDetonationMissing(report: Report, show: Value -> string) returns (missing: seq<string>)
    ensures missing == MissingResources(report, show)
    ensures forall name :: name in PROOFS ==> (name in missing <==> exists key :: key in PROOFS[name] && key !in report)
    ensures "remote_worker" in missing <==>
      !("remote_worker" in report && CleanupComplete(report["remote_worker"], show))
    ensures forall name :: name in missing ==> name == "remote_worker" || name in PROOFS
  {
    MissingNames(report, show);
    hide CleanupComplete, DeletedKeys, IsFailureKey, NETWORK_RESOURCES, When, PROOFS;
    var deleted := DeletedKeys(report);
    var cleaned := false;
    if "remote_worker" in deleted {
      cleaned := RemoteWorkerCleanupComplete(report["remote_worker"], show);
    }
    missing := When(!cleaned, "remote_worker");
    missing := missing + When("instance" !in deleted, "compute_instance");
    missing := missing + When("boot_volume" !in deleted, "boot_volume");
    missing := missing + When("ephemeral_public_ip" !in deleted, "ephemeral_public_ip");
    missing := missing + When(NETWORK_RESOURCES - deleted != {}, "network_resources");
  }

  lemma ProofKeys(report: Report)
    ensures forall key :: key in report && !IsFailureKey(key) ==> key in DeletedKeys(report)
  {
    hide IsFailureKey;
  }

  lemma MissingNames(report: Report, show: Value -> string)
    ensures var missing := MissingResources(report, show);
            && (forall name :: name in PROOFS ==>
              (name in missing <==> exists key :: key in PROOFS[name] && key !in report))
            && ("remote_worker" in missing <==>
              !("remote_worker" in report && CleanupComplete(report["remote_worker"], show)))
            && forall name :: name in missing ==> name == "remote_worker" || name in PROOFS
  {
    FailureKeys();
    ProofKeys(report);
    ProofsByName();
    NamesDiffer();
    hide CleanupComplete, IsFailureKey, DeletedKeys, PROOFS;
    assert NETWORK_RESOURCES - DeletedKeys(report) != {} <==>
      exists key :: key in NETWORK_RESOURCES && key !in report by {
      if key :| key in NETWORK_RESOURCES && key !in report {
        assert key in NETWORK_RESOURCES - DeletedKeys(report);
      }
    }
    hide NETWORK_RESOURCES;
  }

  lemma ProofsByName()
    ensures PROOFS.Keys == {"compute_instance", "boot_volume", "ephemeral_public_ip", "network_resources"}
    ensures PROOFS["compute_instance"] == {"instance"} && PROOFS["boot_volume"] == {"boot_volume"}
    ensures PROOFS["ephemeral_public_ip"] == {"ephemeral_public_ip"} && PROOFS["network_resources"] == NETWORK_RESOURCES
  {
    NamesDiffer();
  }

  lemma NamesDiffer()
    ensures "remote_worker" !in {"compute_instance", "boot_volume", "ephemeral_public_ip", "network_resources"}
    ensures "compute_instance" !in {"boot_volume", "ephemeral_public_ip", "network_resources"}
    ensures "boot_volume" !in {"ephemeral_public_ip", "network_resources"}
      && "ephemeral_public_ip" != "network_resources"
  {
    assert |"remote_worker"| == 13 && |"compute_instance"| == 16 && |"boot_volume"| == 11;
    assert |"ephemeral_public_ip"| == 19 && |"network_resources"| == 17;
  }

  /** `_workspace_detonation_complete`. */
  method WorkspaceDetonationComplete(report: Report, show: Value -> string) returns (complete: bool)
    ensures complete <==> Complete(report, show)
  {
    var missing := WorkspaceDetonationMissing(report, show);
    return (forall key :: key in report ==> !IsFailureKey(key)) && missing == [];
  }

  /** What the two calls must have returned for the worker to count as destroyed. */
  ghost predicate ProvesDestruction(calls: TeardownCalls, show: Value -> string) {
    && calls.cloud.CloudReturned?
    && var deleted := calls.cloud.deleted;
       && AllSurfacesDeleted(deleted.Keys)
       && match calls.cleanup
          case CleanupReturned(proof) =>
            && (forall key :: key in deleted ==> !IsFailureKey(key))
            && CleanupComplete(if "remote_worker" in deleted then Str(deleted["remote_worker"]) else proof, show)
          case CleanupRaised(_) =>
            && "remote_worker" !in deleted
            && (forall key :: key in deleted && IsFailureKey(key) ==> key == "failed.remote_worker")
  }

  /** `_detonate_oci_workspace`: both calls are made, each failure of FuseKit's own kind
      is written into the report, any other exception breaks off. */
  method DetonateOciWorkspace(calls: TeardownCalls, show: Value -> string) returns (r: Outcome<Report>)
    requires calls.Truthful()
    ensures r.Returned? <==> calls.Returns()
    ensures r.Raised? ==> !r.fault.Fine? && !r.fault.FuseKitFault?
    ensures r.Returned? ==> (Complete(r.value, show) <==> ProvesDestruction(calls, show))
    ensures r.Returned? && Complete(r.value, show) ==> calls.Destroys()
  {
    var report: Report := map[];
    match calls.cleanup {
      case CleanupReturned(proof) => report := report["remote_worker" := proof];
      case CleanupRaised(fault) =>
        if !fault.FuseKitFault? {
          return Raised(fault);
        }
        report := report["failed.remote_worker" := Str(fault.message)];
    }
    match calls.cloud {
      case CloudReturned(deleted, _) =>
        report := report + (map key | key in deleted :: Str(deleted[key]));
        assert (map key | key in deleted :: Str(deleted[key])) == Deletions(deleted);
        report := MarkRemoteWorkerDetonated(report, show);
        CompletenessOfReport(calls, report, show);
      case CloudRaised(fault, _) =>
        if !fault.FuseKitFault? {
          return Raised(fault);
        }
        report := report["failed.workspace" := Str(fault.message)];
        assert "failed.workspace"[..7] == "failed.";
    }
    return Returned(report);
  }

  /** The report as the marking leaves it. */
  function Marked(report: Report): Report {
    if "remote_worker" !in report && WorkspaceCloudResourcesDeleted(report)
    then (report - {"failed.remote_worker"})["remote_worker" := CleanupProof()]
    else report
  }

  /** `_mark_remote_worker_detonated_by_workspace_teardown`: destroying the machine proves
      the destruction of the worker on it, so marking completes exactly the reports that lack
      nothing but the worker's own proof; what is said of other resources stays. */
  method MarkRemoteWorkerDetonated(report: Report, show: Value -> string) returns (r: Report)
    ensures r == Marked(report)
    ensures Complete(r, show) <==>
            Complete(report, show) || ("remote_worker" !in report && WorkspaceCloudResourcesDeleted(report))
    ensures r - {"remote_worker", "failed.remote_worker"} == report - {"remote_worker", "failed.remote_worker"}
    ensures "remote_worker" in report ==> r == report
  {
    MarkingCompletes(report, show);
    r := report;
    if "remote_worker" in r {
      return;
    }
    if !WorkspaceCloudResourcesDeleted(r) {
      return;
    }
    r := r - {"failed.remote_worker"};
    r := r["remote_worker" := CleanupProof()];
  }

  lemma MarkingCompletes(report: Report, show: Value -> string)
    ensures Complete(Marked(report), show) <==>
            Complete(report, show) || ("remote_worker" !in report && WorkspaceCloudResourcesDeleted(report))
    ensures Marked(report) - {"remote_worker", "failed.remote_worker"} ==
      report - {"remote_worker", "failed.remote_worker"}
  {
    hide CleanupComplete, CleanupProof, IsFailureKey;
    if "remote_worker" !in report && WorkspaceCloudResourcesDeleted(report) {
      CleanupProofIsComplete(show);
      FailureKeys();
      NothingMissing(Marked(report), show);
      SurfacesOf(Marked(report));
      SurfacesOf(report);
    }
  }

  lemma NothingMissing(report: Report, show: Value -> string)
    ensures MissingResources(report, show) == []
       <==> && "remote_worker" in DeletedKeys(report) && CleanupComplete(report["remote_worker"], show)
            && AllSurfacesDeleted(DeletedKeys(report))
  {
    var deleted := DeletedKeys(report);
    if NETWORK_RESOURCES - deleted == {} {
      forall key | key in NETWORK_RESOURCES ensures key in deleted {
        assert key !in NETWORK_RESOURCES - deleted;
      }
    }
  }

  ghost function Deletions(deleted: map<string, string>): Report {
    map key | key in deleted :: Str(deleted[key])
  }

  lemma NotAFailureKey(key: string)
    requires key != "" && key[0] != 'f'
    ensures !IsFailureKey(key)
  {
    var head := if |key| >= 7 then key[..7] else key;
    assert head[0] == key[0];
  }

  lemma FailureKeys()
    ensures IsFailureKey("failed.remote_worker") && !IsFailureKey("remote_worker")
    ensures !IsFailureKey("instance") && !IsFailureKey("boot_volume") && !IsFailureKey("ephemeral_public_ip")
    ensures forall key :: key in NETWORK_RESOURCES ==> !IsFailureKey(key)
  {
    assert "failed.remote_worker"[..7] == "failed.";
    NotAFailureKey("remote_worker");
    NotAFailureKey("instance");
    NotAFailureKey("boot_volume");
    NotAFailureKey("ephemeral_public_ip");
    forall key | key in NETWORK_RESOURCES ensures !IsFailureKey(key) {
      NotAFailureKey(key);
    }
  }

  lemma SurfacesOf(report: Report)
    ensures AllSurfacesDeleted(DeletedKeys(report)) <==> AllSurfacesDeleted(report.Keys)
  {
    FailureKeys();
  }

  lemma CompletenessOfReport(calls: TeardownCalls, report: Report, show: Value -> string)
    requires calls.Truthful() && calls.Attempted() && calls.cloud.CloudReturned?
    requires var merged := (match calls.cleanup
                            case CleanupReturned(proof) => map["remote_worker" := proof]
                            case CleanupRaised(fault) => map["failed.remote_worker" := Str(fault.message)])
                           + Deletions(calls.cloud.deleted);
             report == Marked(merged)
    ensures Complete(report, show) <==> ProvesDestruction(calls, show)
  {
    hide CleanupComplete, CleanupProof, IsFailureKey;
    CleanupProofIsComplete(show);
    FailureKeys();
    NothingMissing(report, show);
    SurfacesOf(report);
    var deleted := calls.cloud.deleted;
    var d := Deletions(deleted);
    match calls.cleanup {
      case CleanupReturned(proof) =>
        assert report == map["remote_worker" := proof] + d;
        assert AllSurfacesDeleted(report.Keys) <==> AllSurfacesDeleted(deleted.Keys);
      case CleanupRaised(fault) =>
        var merged := map["failed.remote_worker" := Str(fault.message)] + d;
        SurfacesOf(merged);
        assert AllSurfacesDeleted(merged.Keys) <==> AllSurfacesDeleted(deleted.Keys);
        if "remote_worker" in deleted || !WorkspaceCloudResourcesDeleted(merged) {
          assert report == merged && "failed.remote_worker" in report;
        } else {
          assert AllSurfacesDeleted(report.Keys);
        }
    }
  }
}
