/** The decision whether a verification report allows the worker to be destroyed, or at
    least the launch to go on (detonation/preflight.py).  It is written independently of
    the code that builds the report. */
module VerificationGate {
  import opened Json
  import opened Sorting
  import opened Text
  import opened VerificationReport

  datatype Failure =
    | NoChecks
    | InvalidCheck
    | UnexpectedFields(index: nat)
    | FieldMissing(index: nat, key: string)
    | FieldUntrimmed(index: nat, key: string)
    | DetailsNotObject(index: nat)
    | Duplicated(identity: (string, string))
    | Refused(identity: (string, string), status: string)

  type Show = Value -> string
  type Row = map<string, Value>
  type Identity = (string, string)

  // ------------------------------------------------------- the rule

  predicate RequiredTextOk(row: Row, key: string, show: Show) {
    var text := TextField(row, key, "", show);
    text != "" && Trimmed(text)
  }

  predicate OptionalTextOk(row: Row, key: string, show: Show) {
    key in row ==> RequiredTextOk(row, key, show)
  }

  predicate WellFormed(row: Row, show: Show) {
    && row.Keys <= CHECK_KEYS
    && RequiredTextOk(row, "provider", show)
    && RequiredTextOk(row, "check", show)
    && RequiredTextOk(row, "status", show)
    && OptionalTextOk(row, "summary", show)
    && OptionalTextOk(row, "repair", show)
    && ("details" in row ==> row["details"].Obj?)
  }

  function IdentityOf(row: Row, show: Show): Identity {
    (Lower(Strip(TextField(row, "provider", "", show))), Lower(Strip(TextField(row, "check", "", show))))
  }

  predicate PendingSafe(details: Value) {
    && details.Obj?
    && (|| Get(details.fields, "pending_safe", Null) == Bool(true)
        || var nested := Get(details.fields, "details", Null);
           nested.Obj? && Get(nested.fields, "pending_safe", Null) == Bool(true))
  }

  predicate StatusAllowed(row: Row, allowHumanGate: bool, show: Show) {
    var status := Strip(TextField(row, "status", "", show));
    || status == PASSED || status == SKIPPED
    || (status == PENDING
        && (|| PendingSafe(Get(row, "details", Obj(map[])))
            || Strip(TextField(row, "check", "", show)) in PENDING_SAFE_CHECKS))
    || (allowHumanGate && status == NEEDS_HUMAN_GATE)
  }

  predicate RowAllowed(v: Value, allowHumanGate: bool, show: Show) {
    v.Obj? && WellFormed(v.fields, show) && StatusAllowed(v.fields, allowHumanGate, show)
  }

  function IdentityOfValue(v: Value, show: Show): Identity {
    if v.Obj? then IdentityOf(v.fields, show) else ("", "")
  }

  function Identities(rows: seq<Value>, show: Show): seq<Identity> {
    Map(rows, v => IdentityOfValue(v, show))
  }

  /** Every row is well formed and has an allowed status, and no two rows report the same
      check of the same provider, letter case aside. */
  ghost predicate RowsAllowed(rows: seq<Value>, allowHumanGate: bool, show: Show) {
    && (forall i :: 0 <= i < |rows| ==> RowAllowed(rows[i], allowHumanGate, show))
    && Distinct(Identities(rows, show))
  }

  function Rows(report: map<string, Value>): seq<Value> {
    var checks := Get(report, "checks", Arr([]));
    if checks.Arr? then checks.items else []
  }

  ghost predicate Allows(report: map<string, Value>, allowHumanGate: bool, show: Show) {
    Rows(report) != [] && RowsAllowed(Rows(report), allowHumanGate, show)
  }

  ghost predicate AllowsDetonation(report: map<string, Value>, show: Show) {
    Allows(report, false, show)
  }

  ghost predicate AllowsLaunchProgress(report: map<string, Value>, show: Show) {
    Allows(report, true, show)
  }

  // ------------------------------------------------------- the check

  /** The shape failures of one row. */
  method ShapeFailures(row: Row, index: nat, show: Show) returns (failures: seq<Failure>)
    ensures failures == [] <==> WellFormed(row, show)
  {
    failures := [];
    if row.Keys - CHECK_KEYS != {} {
      failures := failures + [UnexpectedFields(index)];
    }
    assert row.Keys - CHECK_KEYS == {} <==> row.Keys <= CHECK_KEYS by {
      if row.Keys - CHECK_KEYS == {} {
        forall key | key in row.Keys ensures key in CHECK_KEYS {
          assert key !in row.Keys - CHECK_KEYS;
        }
      }
    }
    var required := ["provider", "check", "status"];
    for k := 0 to 3
      invariant failures == [] <==>
        row.Keys <= CHECK_KEYS && forall j :: 0 <= j < k ==> RequiredTextOk(row, required[j], show)
    {
      var text := TextField(row, required[k], "", show);
      var value := Strip(text);
      StripTrimmed(text);
      StripIsEmpty(text);
      if value == "" {
        failures := failures + [FieldMissing(index, required[k])];
      } else if text != value {
        failures := failures + [FieldUntrimmed(index, required[k])];
      }
    }
    assert required[0] == "provider" && required[1] == "check" && required[2] == "status";
    var optional := ["summary", "repair"];
    for k := 0 to 2
      invariant failures == [] <==>
                && row.Keys <= CHECK_KEYS
                && (forall j :: 0 <= j < 3 ==> RequiredTextOk(row, required[j], show))
                && (forall j :: 0 <= j < k ==> OptionalTextOk(row, optional[j], show))
    {
      if optional[k] !in row {
        continue;
      }
      var text := TextField(row, optional[k], "", show);
      StripTrimmed(text);
      StripIsEmpty(text);
      if Strip(text) == "" {
        failures := failures + [FieldMissing(index, optional[k])];
      } else if text != Strip(text) {
        failures := failures + [FieldUntrimmed(index, optional[k])];
      }
    }
    assert optional[0] == "summary" && optional[1] == "repair";
    if "details" in row && !row["details"].Obj? {
      failures := failures + [DetailsNotObject(index)];
    }
  }

  lemma StripIsEmpty(s: string)
    ensures s == "" ==> Strip(s) == ""
    ensures s != "" && Trimmed(s) ==> Strip(s) != ""
  {
    StripTrimmed(s);
  }

  /** `_verification_failures`. */
  method VerificationFailures(report: map<string, Value>, allowHumanGate: bool, show: Show)
    returns (failures: seq<Failure>)
    ensures failures == [] <==> Allows(report, allowHumanGate, show)
  {
    hide WellFormed, StatusAllowed, IdentityOf;
    var rows := Rows(report);
    if rows == [] {
      return [NoChecks];
    }
    failures := [];
    var seen: set<Identity> := {};
    for n := 0 to |rows|
      invariant failures == [] ==> RowsAllowed(rows[..n], allowHumanGate, show)
      invariant failures == [] ==> forall id :: id in seen <==> id in Identities(rows[..n], show)
      invariant failures != [] ==> !RowsAllowed(rows, allowHumanGate, show)
    {
      if !rows[n].Obj? {
        failures := failures + [InvalidCheck];
        assert !RowAllowed(rows[n], allowHumanGate, show);
        continue;
      }
      var row := rows[n].fields;
      var shape := ShapeFailures(row, n, show);
      failures := failures + shape;
      assert shape != [] ==> !RowAllowed(rows[n], allowHumanGate, show);
      var provider := Strip(TextField(row, "provider", "", show));
      var check := Strip(TextField(row, "check", "", show));
      var status := Strip(TextField(row, "status", "", show));
      MissingTextIsMalformed(row, show);
      if provider == "" || check == "" || status == "" {
        continue;
      }
      var identity := IdentityOf(row, show);
      AppendedRow(rows, n, allowHumanGate, show);
      if identity in seen {
        failures := failures + [Duplicated(identity)];
        continue;
      }
      seen := seen + {identity};
      if !StatusAllowed(row, allowHumanGate, show) {
        failures := failures + [Refused(identity, status)];
      }
    }
    assert rows[..|rows|] == rows;
  }

  lemma MissingTextIsMalformed(row: Row, show: Show)
    ensures WellFormed(row, show) ==>
              && Strip(TextField(row, "provider", "", show)) != ""
              && Strip(TextField(row, "check", "", show)) != ""
              && Strip(TextField(row, "status", "", show)) != ""
  {
    StripIsEmpty(TextField(row, "provider", "", show));
    StripIsEmpty(TextField(row, "check", "", show));
    StripIsEmpty(TextField(row, "status", "", show));
  }

  lemma AppendedRow(rows: seq<Value>, n: nat, allowHumanGate: bool, show: Show)
    requires n < |rows| && rows[n].Obj?
    ensures Identities(rows[..n + 1], show) == Identities(rows[..n], show) + [IdentityOf(rows[n].fields, show)]
    ensures rows[..n + 1] == rows[..n] + [rows[n]]
    ensures IdentityOf(rows[n].fields, show) in Identities(rows[..n], show) ==> !RowsAllowed(rows, allowHumanGate, show)
  {
    var ids := Identities(rows, show);
    assert Identities(rows[..n], show) == ids[..n];
    if IdentityOf(rows[n].fields, show) in Identities(rows[..n], show) {
      var i :| 0 <= i < n && ids[..n][i] == IdentityOf(rows[n].fields, show);
      assert ids[i] == ids[n];
    }
  }

  // ------------------------------------------------------- laws of the decision

  /** The decision does not depend on the order of the rows. */
  lemma OrderDoesNotMatter(a: seq<Value>, b: seq<Value>, allowHumanGate: bool, show: Show)
    requires multiset(a) == multiset(b)
    ensures RowsAllowed(a, allowHumanGate, show) <==> RowsAllowed(b, allowHumanGate, show)
  {
    if RowsAllowed(a, allowHumanGate, show) {
      PermutedRowsAllowed(a, b, allowHumanGate, show);
    }
    if RowsAllowed(b, allowHumanGate, show) {
      PermutedRowsAllowed(b, a, allowHumanGate, show);
    }
  }

  lemma PermutedRowsAllowed(a: seq<Value>, b: seq<Value>, allowHumanGate: bool, show: Show)
    requires multiset(a) == multiset(b) && RowsAllowed(a, allowHumanGate, show)
    ensures RowsAllowed(b, allowHumanGate, show)
  {
    hide RowAllowed, IdentityOfValue;
    forall i | 0 <= i < |b| ensures RowAllowed(b[i], allowHumanGate, show) {
      assert b[i] in multiset(a);
    }
    MapPermutes(a, b, v => IdentityOfValue(v, show));
    assert Identities(a, show) == Map(a, v => IdentityOfValue(v, show));
    assert Identities(b, show) == Map(b, v => IdentityOfValue(v, show));
    PermutationKeepsDistinct(Identities(a, show), Identities(b, show));
  }

  /** Wherever a row is added, it never turns a refusal into permission. */
  lemma AddingARowNeverHelps(before: seq<Value>, v: Value, after: seq<Value>, allowHumanGate: bool, show: Show)
    requires RowsAllowed(before + [v] + after, allowHumanGate, show)
    ensures RowsAllowed(before + after, allowHumanGate, show)
  {
    hide RowAllowed, IdentityOfValue;
    var all, fewer := before + [v] + after, before + after;
    assert forall i :: 0 <= i < |fewer| ==> fewer[i] == all[if i < |before| then i else i + 1];
    var ids, left := Identities(all, show), Identities(fewer, show);
    forall i, j | 0 <= i < j < |left| ensures left[i] != left[j] {
      var p, q := if i < |before| then i else i + 1, if j < |before| then j else j + 1;
      assert left[i] == ids[p] && left[j] == ids[q];
    }
  }

  /** The one exception: a report without rows is refused, so a first row can help. */
  lemma AddingAFirstRowCanHelp(show: Show)
    ensures var row := Obj(map["provider" := Str("github"), "check" := Str("configured"), "status" := Str("passed")]);
            && !AllowsDetonation(map["checks" := Arr([])], show)
            && AllowsDetonation(map["checks" := Arr([row])], show)
  {
    var row := map["provider" := Str("github"), "check" := Str("configured"), "status" := Str("passed")];
    assert TextField(row, "status", "", show) == "passed";
    StripTrimmed("passed");
    assert WellFormed(row, show);
    var report := map["checks" := Arr([Obj(row)])];
    assert Rows(report) == [Obj(row)];
    assert RowAllowed(Obj(row), false, show);
  }

  lemma DetonationImpliesLaunchProgress(report: map<string, Value>, show: Show)
    ensures AllowsDetonation(report, show) ==> AllowsLaunchProgress(report, show)
  {
    hide WellFormed;
    forall i | 0 <= i < |Rows(report)| && AllowsDetonation(report, show)
      ensures RowAllowed(Rows(report)[i], true, show) {
      assert RowAllowed(Rows(report)[i], false, show);
    }
  }

  // ------------------------------------------------------- the report against the gate

  lemma DictFields(c: Check, fingerprint: string -> string, show: Show)
    ensures var row := CheckDict(c, fingerprint).fields;
            && TextField(row, "provider", "", show) == c.provider
            && TextField(row, "check", "", show) == c.check
            && TextField(row, "status", "", show) == c.status
            && TextField(row, "summary", "", show) == c.summary
            && TextField(row, "repair", "", show) == c.repair
            && row.Keys == CHECK_KEYS
  {
  }

  /** A report that allows destruction shows an overall status of passed or pending. */
  lemma AllowedReportIsPassedOrPending(checks: seq<Check>, overall: string, fingerprint: string -> string, show: Show)
    requires IsOverall(checks, overall)
    requires RowsAllowed(CheckDicts(checks, fingerprint), false, show)
    ensures overall == PASSED || overall == PENDING
  {
    hide PendingSafe, CheckDict, TextField, Strip;
    forall i | 0 <= i < |checks| ensures checks[i].status in {PASSED, SKIPPED, PENDING} {
      DictFields(checks[i], fingerprint, show);
      assert RowAllowed(CheckDicts(checks, fingerprint)[i], false, show);
      StripTrimmed(checks[i].status);
    }
  }
}
