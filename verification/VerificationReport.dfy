/** The report of provider checks (verification_report.py). */
module VerificationReport {
  import opened Json
  import opened Redaction
  import opened Text

  const PASSED := "passed"
  const PENDING := "pending"
  const REPAIRING := "repairing"
  const FAILED := "failed"
  const SKIPPED := "skipped"
  const NEEDS_HUMAN_GATE := "needs_human_gate"

  const STATUSES: seq<string> := [PASSED, PENDING, REPAIRING, FAILED, SKIPPED, NEEDS_HUMAN_GATE]

  const CHECK_KEYS: set<string> := {"provider", "check", "status", "summary", "repair", "details"}

  const PENDING_SAFE_CHECKS: set<string> := {
    "dns_propagated", "dns_record_exists", "domain_verified", "deployment_url_exists"
  }

  /** One result of a provider recipe. */
  datatype Result = Result(
    provider: string, kind: string, target: string, status: string, details: map<string, Value>)

  /** `VerificationResult.to_dict()`: the details are redacted. */
  function ResultDict(r: Result, fingerprint: string -> string): Value {
    Obj(map[
      "provider" := Str(r.provider), "kind" := Str(r.kind), "target" := Str(r.target),
      "status" := Str(r.status), "details" := Redact(Obj(r.details), fingerprint)
    ])
  }

  /** One row of the report, before serialization. */
  datatype Check = Check(
    provider: string, check: string, status: string, summary: string, repair: string, details: Value)

  /** `VerificationCheck.to_dict()`. */
  function CheckDict(c: Check, fingerprint: string -> string): Value {
    Obj(map[
      "provider" := Str(c.provider), "check" := Str(c.check), "status" := Str(c.status),
      "summary" := Str(c.summary), "repair" := Str(c.repair),
      "details" := Redact(c.details, fingerprint)
    ])
  }

  /** The checks with a name of their own. */
  const CHECK_NAMES: map<string, string> := map[
    "env-present" := "configured",
    "http-json" := "auth_valid",
    "dns-record" := "dns_propagated",
    "dns-records" := "dns_propagated",
    "url-health" := "live_url_healthy",
    "github-repo-secret" := "repo_secret_exists",
    "github-deploy-key" := "deploy_key_exists",
    "vercel-project" := "project_exists",
    "vercel-env" := "env_vars_configured",
    "vercel-deployment-url" := "deployment_url_exists",
    "cloudflare-dns-api" := "dns_record_exists",
    "resend-domain" := "domain_verified",
    "webhook-secret" := "webhook_secret_present",
    "provider-gate" := "provider_gate"
  ]

  function CheckName(kind: string): string {
    if kind in CHECK_NAMES then CHECK_NAMES[kind] else "resource_exists"
  }

  function ReportStatus(status: string, repaired: bool): string {
    if status == "ok" then PASSED
    else if status == "skipped" then SKIPPED
    else if status == "pending" then PENDING
    else if status == "needs_human_gate" then NEEDS_HUMAN_GATE
    else if repaired then REPAIRING
    else FAILED
  }

  function ReadableCheck(check: string): string {
    seq(|check|, i requires 0 <= i < |check| => if check[i] == '_' then ' ' else check[i])
  }

  function Summary(provider: string, check: string, status: string): string {
    provider + " " + ReadableCheck(check) +
    (if status == PASSED then " passed."
     else if status == PENDING then " is still pending."
     else if status == REPAIRING then " needs a repair pass."
     else if status == NEEDS_HUMAN_GATE then " needs your provider verification step."
     else if status == SKIPPED then " was skipped as optional."
     else " failed.")
  }

  /** The repair note of a row: `(provider, check, status, target, details)`.  Its wording
      is not modelled; it is never blank and has no white space at its ends. */
  type RepairNote = (string, string, string, string, map<string, Value>) -> string

  ghost predicate ProperNote(note: RepairNote) {
    forall p, c, s, t, d :: note(p, c, s, t, d) != "" && Trimmed(note(p, c, s, t, d))
  }

  function CheckFromResult(
    provider: string, r: Result, repaired: bool, note: RepairNote, fingerprint: string -> string): Check
  {
    var status := ReportStatus(r.status, repaired);
    var check := CheckName(r.kind);
    Check(provider, check, status, Summary(provider, check, status),
          note(provider, check, status, r.target, r.details), ResultDict(r, fingerprint))
  }

  /** What a row says of a result: whose it is, and a status that is the matching word for the
      four that have one, and else tells whether a repair was tried. */
  ghost predicate Reports(row: Check, provider: string, r: Result, repaired: bool) {
    && row.provider == provider
    && (row.status == "passed" <==> r.status == "ok")
    && (row.status == "skipped" <==> r.status == "skipped")
    && (row.status == "pending" <==> r.status == "pending")
    && (row.status == "needs_human_gate" <==> r.status == "needs_human_gate")
    && (row.status == "repairing" <==> repaired && r.status !in {"ok", "skipped", "pending", "needs_human_gate"})
    && (row.status == "failed" <==> !repaired && r.status !in {"ok", "skipped", "pending", "needs_human_gate"})
    && (row.check == "dns_propagated" <==> r.kind == "dns-record" || r.kind == "dns-records")
    && (row.check == "dns_record_exists" <==> r.kind == "cloudflare-dns-api")
    && (row.check == "domain_verified" <==> r.kind == "resend-domain")
    && (row.check == "deployment_url_exists" <==> r.kind == "vercel-deployment-url")
    && (row.check == "webhook_secret_present" <==> r.kind == "webhook-secret")
    && (row.check == "provider_gate" <==> r.kind == "provider-gate")
  }

  lemma RowsReport(provider: string, results: seq<Result>, repaired: bool, note: RepairNote,
      fingerprint: string -> string)
    ensures var rows := ChecksFromResults(provider, results, repaired, note, fingerprint);
            forall i :: 0 <= i < |results| ==> Reports(rows[i], provider, results[i], repaired)
  {
    forall i | 0 <= i < |results|
      ensures Reports(CheckFromResult(provider, results[i], repaired, note, fingerprint), provider, results[i],
                      repaired)
    {
      RowReports(provider, results[i], repaired, note, fingerprint);
    }
    hide Reports, CheckFromResult;
  }

  lemma RowReports(provider: string, r: Result, repaired: bool, note: RepairNote, fingerprint: string -> string)
    ensures Reports(CheckFromResult(provider, r, repaired, note, fingerprint), provider, r, repaired)
  {
    NamesOfChecks(r.kind);
    WordsOfStatus(r.status, repaired);
    hide Summary, CHECK_NAMES, CheckName, ReportStatus;
  }

  lemma WordsOfStatus(status: string, repaired: bool)
    ensures var word := ReportStatus(status, repaired);
            && (word == "passed" <==> status == "ok") && (word == "skipped" <==> status == "skipped")
            && (word == "pending" <==> status == "pending")
            && (word == "needs_human_gate" <==> status == "needs_human_gate")
            && (word == "repairing" <==> repaired && status !in {"ok", "skipped", "pending", "needs_human_gate"})
            && (word == "failed" <==> !repaired && status !in {"ok", "skipped", "pending", "needs_human_gate"})
  {
    assert |"passed"| == 6 && |"skipped"| == 7 && |"pending"| == 7 && |"needs_human_gate"| == 16;
    assert |"repairing"| == 9 && |"failed"| == 6;
    assert "passed"[0] == 'p' && "failed"[0] == 'f' && "skipped"[0] == 's' && "pending"[0] == 'p';
    assert |"ok"| == 2;
  }

  lemma NamesOfChecks(kind: string)
    ensures CheckName(kind) == "dns_propagated" <==> kind == "dns-record" || kind == "dns-records"
    ensures CheckName(kind) == "dns_record_exists" <==> kind == "cloudflare-dns-api"
    ensures CheckName(kind) == "domain_verified" <==> kind == "resend-domain"
    ensures CheckName(kind) == "deployment_url_exists" <==> kind == "vercel-deployment-url"
    ensures CheckName(kind) == "webhook_secret_present" <==> kind == "webhook-secret"
    ensures CheckName(kind) == "provider_gate" <==> kind == "provider-gate"
  {
  }

  /** The rows of one provider's results. */
  function ChecksFromResults(
    provider: string, results: seq<Result>, repaired: bool, note: RepairNote, fingerprint: string -> string)
    : (checks: seq<Check>)
    ensures |checks| == |results|
    ensures forall i :: 0 <= i < |results| ==>
              checks[i] == CheckFromResult(provider, results[i], repaired, note, fingerprint)
  {
    if results == [] then []
    else [CheckFromResult(provider, results[0], repaired, note, fingerprint)]
         + ChecksFromResults(provider, results[1..], repaired, note, fingerprint)
  }

  function CheckDicts(checks: seq<Check>, fingerprint: string -> string): seq<Value> {
    seq(|checks|, i requires 0 <= i < |checks| => CheckDict(checks[i], fingerprint))
  }

  /** The row of the live-URL health check; its two notes are not modelled either. */
  function LiveUrlCheck(result: map<string, Value>, note: RepairNote): Check {
    var status :=
      if Truthy(Get(result, "ok", Null)) then PASSED
      else if Truthy(Get(result, "pending_safe", Null)) then PENDING
      else FAILED;
    Check("live_app", "live_url_healthy", status,
          note("live_app", "live_url_healthy", status, "summary", result),
          note("live_app", "live_url_healthy", status, "repair", result),
          Obj(result))
  }

  /** How many rows have this status. */
  function Count(checks: seq<Check>, status: string): nat {
    if checks == [] then 0
    else (if checks[0].status == status then 1 else 0) + Count(checks[1..], status)
  }

  lemma {:induction false} CountAppend(checks: seq<Check>, c: Check, status: string)
    ensures Count(checks + [c], status) == Count(checks, status) + (if c.status == status then 1 else 0)
  {
    if checks == [] {
      assert checks + [c] == [c];
    } else {
      assert (checks + [c])[1..] == checks[1..] + [c];
      CountAppend(checks[1..], c, status);
    }
  }

  lemma {:induction false} CountIsPositive(checks: seq<Check>, status: string)
    ensures Count(checks, status) > 0 <==> exists i :: 0 <= i < |checks| && checks[i].status == status
  {
    if checks != [] {
      CountIsPositive(checks[1..], status);
      assert forall i :: 0 < i < |checks| ==> checks[i] == checks[1..][i - 1];
      if i :| 0 <= i < |checks| && checks[i].status == status {
        if i > 0 {
          assert checks[1..][i - 1].status == status;
        }
      }
    }
  }

  /** The worst status present decides; an empty report is pending. */
  ghost predicate IsOverall(checks: seq<Check>, overall: string) {
    var has := (s: string) => exists i :: 0 <= i < |checks| && checks[i].status == s;
    if has(FAILED) then overall == FAILED
    else if has(REPAIRING) then overall == REPAIRING
    else if has(NEEDS_HUMAN_GATE) then overall == NEEDS_HUMAN_GATE
    else if has(PENDING) || checks == [] then overall == PENDING
    else overall == PASSED
  }

  class Report {
    var checks: seq<Check>

    constructor ()
      ensures checks == []
    {
      checks := [];
    }

    method AddLiveUrl(result: map<string, Value>, note: RepairNote)
      modifies this
      ensures checks == old(checks) + [LiveUrlCheck(result, note)]
    {
      checks := checks + [LiveUrlCheck(result, note)];
    }

    method AddProviderResults(
      provider: string, results: seq<Result>, repaired: bool, note: RepairNote, fingerprint: string -> string)
      modifies this
      ensures checks == old(checks) + ChecksFromResults(provider, results, repaired, note, fingerprint)
      ensures |checks| == |old(checks)| + |results|
      ensures forall i :: 0 <= i < |results| ==> Reports(checks[|old(checks)| + i], provider, results[i], repaired)
    {
      RowsReport(provider, results, repaired, note, fingerprint);
      hide CheckFromResult, Reports;
      ghost var all := ChecksFromResults(provider, results, repaired, note, fingerprint);
      for n := 0 to |results|
        invariant checks == old(checks) + all[..n]
      {
        checks := checks + [CheckFromResult(provider, results[n], repaired, note, fingerprint)];
      }
    }

    /** The parts of `to_dict()` that are computed from the rows. */
    method ToDict(fingerprint: string -> string)
      returns (overall: string, counts: map<string, nat>, rows: seq<Value>)
      ensures IsOverall(checks, overall)
      ensures counts.Keys == (set s | s in STATUSES) && forall s :: s in counts ==> counts[s] == Count(checks, s)
      ensures rows == CheckDicts(checks, fingerprint)
    {
      counts := map s | s in STATUSES :: 0;
      for n := 0 to |checks|
        invariant counts.Keys == set s | s in STATUSES
        invariant forall s :: s in counts ==> counts[s] == Count(checks[..n], s)
      {
        assert checks[..n + 1] == checks[..n] + [checks[n]];
        forall s | s in counts {
          CountAppend(checks[..n], checks[n], s);
        }
        if checks[n].status in counts {
          counts := counts[checks[n].status := counts[checks[n].status] + 1];
        }
      }
      assert checks[..|checks|] == checks;
      overall := if checks == [] then PENDING else PASSED;
      forall s {
        CountIsPositive(checks, s);
      }
      if counts[FAILED] != 0 {
        overall := FAILED;
      } else if counts[REPAIRING] != 0 {
        overall := REPAIRING;
      } else if counts[NEEDS_HUMAN_GATE] != 0 {
        overall := NEEDS_HUMAN_GATE;
      } else if counts[PENDING] != 0 {
        overall := PENDING;
      }
      rows := CheckDicts(checks, fingerprint);
    }
  }
}
