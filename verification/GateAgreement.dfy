/** The stage that accepts provider results (cli.py) against the stage that judges the
    report made from them.  The two were written separately; here is when they agree. */
module GateAgreement {
  import opened Json
  import opened Redaction
  import opened Sorting
  import opened Text
  import opened VerificationGate
  import opened VerificationReport

  /** What one row of a report is made from. */
  datatype Entry =
    | ProviderEntry(provider: string, result: Result, repaired: bool)
    | LiveUrlEntry(health: map<string, Value>)

  function EntryCheck(e: Entry, note: RepairNote, fingerprint: string -> string): Check {
    match e
    case ProviderEntry(provider, result, repaired) => CheckFromResult(provider, result, repaired, note, fingerprint)
    case LiveUrlEntry(health) => LiveUrlCheck(health, note)
  }

  function EntryRows(entries: seq<Entry>, note: RepairNote, fingerprint: string -> string): (rows: seq<Value>)
    ensures |rows| == |entries|
    ensures forall i :: 0 <= i < |entries| ==>
      rows[i] == CheckDict(EntryCheck(entries[i], note, fingerprint), fingerprint)
  {
    seq(|entries|, i requires 0 <= i < |entries| => CheckDict(EntryCheck(entries[i], note, fingerprint), fingerprint))
  }

  /** `_provider_verification_acceptable`, for one result. */
  predicate ResultAcceptable(r: Result, fingerprint: string -> string) {
    || r.status == "ok" || r.status == "skipped" || r.status == "needs_human_gate"
    || (r.status == "pending"
        && Truthy(Get(Redact(Obj(r.details), fingerprint).fields, "pending_safe", Null)))
  }

  predicate EntryAcceptable(e: Entry, fingerprint: string -> string) {
    match e
    case ProviderEntry(_, result, _) => ResultAcceptable(result, fingerprint)
    case LiveUrlEntry(health) =>
      Truthy(Get(health, "ok", Null)) || Truthy(Get(health, "pending_safe", Null))
  }

  /** The flag as the entry carries it. */
  function PendingFlag(e: Entry): Value {
    match e
    case ProviderEntry(_, result, _) => Get(result.details, "pending_safe", Null)
    case LiveUrlEntry(health) => Get(health, "pending_safe", Null)
  }

  function EntryStatus(e: Entry): string {
    match e
    case ProviderEntry(_, result, repaired) => ReportStatus(result.status, repaired)
    case LiveUrlEntry(health) =>
      if Truthy(Get(health, "ok", Null)) then PASSED
      else if Truthy(Get(health, "pending_safe", Null)) then PENDING
      else FAILED
  }

  function EntryProvider(e: Entry): string {
    if e.ProviderEntry? then e.provider else "live_app"
  }

  function EntryCheckName(e: Entry): string {
    if e.ProviderEntry? then CheckName(e.result.kind) else "live_url_healthy"
  }

  function EntryIdentity(e: Entry): Identity {
    (Lower(EntryProvider(e)), Lower(EntryCheckName(e)))
  }

  function EntryIdentities(entries: seq<Entry>): seq<Identity> {
    seq(|entries|, i requires 0 <= i < |entries| => EntryIdentity(entries[i]))
  }

  predicate ProviderNamed(e: Entry) {
    e.ProviderEntry? ==> e.provider != "" && Trimmed(e.provider)
  }

  // ------------------------------------------------------- one row

  lemma CheckNamesAreProper(kind: string)
    ensures CheckName(kind) != "" && Trimmed(CheckName(kind))
  {
    if kind in CHECK_NAMES {
      NameStarts(CHECK_NAMES[kind]);
      NameEnds(CHECK_NAMES[kind]);
    }
    hide CHECK_NAMES;
  }

  lemma NameStarts(name: string)
    requires name in CHECK_NAMES.Values
    ensures name != "" && !IsSpace(name[0])
  {
    assert name[0] in {'c', 'a', 'd', 'l', 'r', 'p', 'e', 'w'};
    hide CHECK_NAMES;
  }

  lemma NameEnds(name: string)
    requires name in CHECK_NAMES.Values
    ensures name != "" && !IsSpace(name[|name| - 1])
  {
    assert name[|name| - 1] in {'d', 'y', 's', 't', 'e'};
    hide CHECK_NAMES;
  }

  lemma SummaryIsProper(provider: string, check: string, status: string)
    requires provider != "" && Trimmed(provider)
    ensures Summary(provider, check, status) != "" && Trimmed(Summary(provider, check, status))
  {
    var s := Summary(provider, check, status);
    assert s[0] == provider[0];
    assert s[|s| - 1] == '.';
  }

  predicate Proper(s: string) { s != "" && Trimmed(s) }

  lemma EntryStatusIsProper(e: Entry)
    ensures Proper(EntryStatus(e))
  {
    var s := EntryStatus(e);
    assert s[0] in {'p', 'r', 'f', 's', 'n'} && s[|s| - 1] in {'d', 'g', 'e'};
  }

  lemma LiveUrlNamesAreProper()
    ensures Proper("live_app") && Proper("live_url_healthy")
  {
  }

  lemma EntryTextsAreProper(e: Entry, note: RepairNote, fingerprint: string -> string)
    requires ProviderNamed(e) && ProperNote(note)
    ensures var c := EntryCheck(e, note, fingerprint);
            && Proper(c.provider) && Proper(c.check) && Proper(c.status) && Proper(c.summary) && Proper(c.repair)
            && c.provider == EntryProvider(e) && c.check == EntryCheckName(e) && c.status == EntryStatus(e)
  {
    hide CheckName, Summary, ResultDict, Trimmed;
    EntryStatusIsProper(e);
    match e {
      case ProviderEntry(provider, result, repaired) =>
        CheckNamesAreProper(result.kind);
        SummaryIsProper(provider, CheckName(result.kind), ReportStatus(result.status, repaired));
      case LiveUrlEntry(health) => LiveUrlNamesAreProper();
    }
  }

  lemma EntryIsWellFormed(e: Entry, note: RepairNote, fingerprint: string -> string, show: Show)
    requires ProviderNamed(e) && ProperNote(note)
    ensures var row := CheckDict(EntryCheck(e, note, fingerprint), fingerprint);
            && WellFormed(row.fields, show)
            && IdentityOf(row.fields, show) == EntryIdentity(e)
            && Strip(TextField(row.fields, "status", "", show)) == EntryStatus(e)
            && Strip(TextField(row.fields, "check", "", show)) == EntryCheckName(e)
  {
    var c := EntryCheck(e, note, fingerprint);
    DetailsAreAnObject(c, fingerprint, e, note);
    hide CheckDict, TextField, Strip, Lower, EntryCheck, EntryCheckName, EntryProvider, EntryStatus;
    DictFields(c, fingerprint, show);
    EntryTextsAreProper(e, note, fingerprint);
    StripTrimmed(c.provider);
    StripTrimmed(c.check);
    StripTrimmed(c.status);
  }

  lemma DetailsAreAnObject(c: Check, fingerprint: string -> string, e: Entry, note: RepairNote)
    requires c == EntryCheck(e, note, fingerprint)
    ensures "details" in CheckDict(c, fingerprint).fields
    ensures CheckDict(c, fingerprint).fields["details"] == Redact(c.details, fingerprint)
    ensures Redact(c.details, fingerprint).Obj?
  {
  }

  /** A member that is not secret-looking keeps being literally true, or not. */
  lemma TrueSurvivesRedaction(fields: map<string, Value>, key: string, fingerprint: string -> string)
    requires !IsSecretKey(key)
    ensures Get(Redact(Obj(fields), fingerprint).fields, key, Null) == Redact(Get(fields, key, Null), fingerprint)
    ensures Get(Redact(Obj(fields), fingerprint).fields, key, Null) == Bool(true) <==>
      Get(fields, key, Null) == Bool(true)
  {
  }

  /** After translation, nesting and two redactions, the gate reads the flag as literally
      true exactly when the entry carried it as literally true. */
  lemma FlagSurvives(e: Entry, note: RepairNote, fingerprint: string -> string)
    ensures PendingSafe(Redact(EntryCheck(e, note, fingerprint).details, fingerprint))
            <==> PendingFlag(e) == Bool(true) || (e.LiveUrlEntry? && NestedFlag(e.health))
  {
    match e {
      case ProviderEntry(_, result, _) => ResultFlagSurvives(result, fingerprint);
      case LiveUrlEntry(health) => HealthFlagSurvives(health, fingerprint);
    }
  }

  lemma ResultFlagSurvives(result: Result, fingerprint: string -> string)
    ensures PendingSafe(Redact(ResultDict(result, fingerprint), fingerprint))
            <==> Get(result.details, "pending_safe", Null) == Bool(true)
  {
    PendingSafeIsPublic();
    hide IsSecretKey;
    var inner := ResultDict(result, fingerprint).fields;
    var once := Redact(Obj(result.details), fingerprint);
    TrueSurvivesRedaction(result.details, "pending_safe", fingerprint);
    TrueSurvivesRedaction(once.fields, "pending_safe", fingerprint);
    TrueSurvivesRedaction(inner, "pending_safe", fingerprint);
    TrueSurvivesRedaction(inner, "details", fingerprint);
    assert Get(inner, "details", Null) == once && Get(inner, "pending_safe", Null) == Null;
    hide Redact, ResultDict;
    assert once.Obj?;
  }

  lemma HealthFlagSurvives(health: map<string, Value>, fingerprint: string -> string)
    ensures PendingSafe(Redact(Obj(health), fingerprint))
            <==> Get(health, "pending_safe", Null) == Bool(true) || NestedFlag(health)
  {
    PendingSafeIsPublic();
    hide IsSecretKey;
    TrueSurvivesRedaction(health, "pending_safe", fingerprint);
    TrueSurvivesRedaction(health, "details", fingerprint);
    var nested := Get(health, "details", Null);
    if nested.Obj? {
      TrueSurvivesRedaction(nested.fields, "pending_safe", fingerprint);
    }
  }

  predicate NestedFlag(health: map<string, Value>) {
    var nested := Get(health, "details", Null);
    nested.Obj? && Get(nested.fields, "pending_safe", Null) == Bool(true)
  }

  /** What the gate asks of a pending row: a flag that is literally true, or a check that
      may always wait. */
  predicate PendingIsSafe(e: Entry) {
    EntryStatus(e) == PENDING ==>
      || PendingFlag(e) == Bool(true)
      || (e.LiveUrlEntry? && NestedFlag(e.health))
      || EntryCheckName(e) in PENDING_SAFE_CHECKS
  }

  /** What an entry must be for its row to be allowed, in terms of what the provider or the
      health check returned: passed, skipped, pending with a flag that is literally true or with
      a check that may always wait, or, for launch progress alone, at a human gate. */
  predicate Passes(e: Entry, allowHumanGate: bool) {
    match e
    case ProviderEntry(_, result, _) =>
      || result.status == "ok" || result.status == "skipped"
      || (result.status == "pending"
          && (|| Get(result.details, "pending_safe", Null) == Bool(true)
              || result.kind in {"dns-record", "dns-records", "cloudflare-dns-api", "resend-domain",
                                 "vercel-deployment-url"}))
      || (result.status == "needs_human_gate" && allowHumanGate)
    case LiveUrlEntry(health) =>
      || Truthy(Get(health, "ok", Null))
      || Get(health, "pending_safe", Null) == Bool(true)
      || (Truthy(Get(health, "pending_safe", Null)) && NestedFlag(health))
  }

  lemma StatusesThatPass(e: Entry, allowHumanGate: bool)
    ensures Passes(e, allowHumanGate) <==>
      || EntryStatus(e) == PASSED || EntryStatus(e) == SKIPPED
      || (EntryStatus(e) == PENDING && PendingIsSafe(e))
      || (EntryStatus(e) == NEEDS_HUMAN_GATE && allowHumanGate)
  {
    match e {
      case ProviderEntry(_, result, repaired) =>
        WordsOfStatus(result.status, repaired);
        NamesOfChecks(result.kind);
        hide ReportStatus, CheckName;
        ChecksThatMayWait(result.kind);
      case LiveUrlEntry(health) =>
        hide PENDING_SAFE_CHECKS, NestedFlag;
        LiveUrlMayNotWait();
    }
  }

  lemma ChecksThatMayWait(kind: string)
    ensures CheckName(kind) in PENDING_SAFE_CHECKS <==>
            kind in {"dns-record", "dns-records", "cloudflare-dns-api", "resend-domain", "vercel-deployment-url"}
  {
    NamesOfChecks(kind);
    hide CheckName;
  }

  lemma LiveUrlMayNotWait()
    ensures "live_url_healthy" !in PENDING_SAFE_CHECKS
  {
    assert |"live_url_healthy"| == 16;
  }

  lemma EntryRowAllowed(e: Entry, allowHumanGate: bool, note: RepairNote, fingerprint: string -> string, show: Show)
    requires ProviderNamed(e) && ProperNote(note)
    ensures RowAllowed(CheckDict(EntryCheck(e, note, fingerprint), fingerprint), allowHumanGate, show) <==>
            Passes(e, allowHumanGate)
  {
    hide WellFormed, TextField, Strip, PendingSafe, Redact, EntryIdentity, EntryCheckName;
    EntryIsWellFormed(e, note, fingerprint, show);
    FlagSurvives(e, note, fingerprint);
    DetailsAreAnObject(EntryCheck(e, note, fingerprint), fingerprint, e, note);
    StatusesThatPass(e, allowHumanGate);
    hide EntryStatus, Passes;
  }

  // ------------------------------------------------------- the two stages

  // ------------------------------------------------------- rows that name the same check

  /** Two kinds of results are reported under one name: equal ones, the two for DNS records, and
      any two without a name of their own. */
  predicate SameKind(a: string, b: string) {
    a == b || (IsDnsRecord(a) && IsDnsRecord(b)) || (!IsKnown(a) && !IsKnown(b))
  }

  predicate IsDnsRecord(kind: string) { kind == "dns-record" || kind == "dns-records" }

  predicate IsKnown(kind: string) {
    kind in {"env-present", "http-json", "dns-record", "dns-records", "url-health", "github-repo-secret",
             "github-deploy-key", "vercel-project", "vercel-env", "vercel-deployment-url", "cloudflare-dns-api",
             "resend-domain", "webhook-secret", "provider-gate"}
  }

  /** The two rows name the same check of the same provider, letter case aside. */
  predicate Clash(a: Entry, b: Entry) {
    match (a, b)
    case (ProviderEntry(p, r, _), ProviderEntry(q, s, _)) => Lower(p) == Lower(q) && SameKind(r.kind, s.kind)
    case (ProviderEntry(p, r, _), LiveUrlEntry(_)) => Lower(p) == Lower("live_app") && r.kind == "url-health"
    case (LiveUrlEntry(_), ProviderEntry(q, s, _)) => Lower(q) == Lower("live_app") && s.kind == "url-health"
    case (LiveUrlEntry(_), LiveUrlEntry(_)) => true
  }

  ghost predicate NoClash(entries: seq<Entry>) {
    forall i, j :: 0 <= i < j < |entries| ==> !Clash(entries[i], entries[j])
  }

  /** Length and first letters tell the names of checks apart. */
  function Mark(kind: string): (int, char, char) {
    match kind
    case "env-present" => (10, 'c', 'o')
    case "http-json" => (10, 'a', 'u')
    case "dns-record" => (14, 'd', 'n')
    case "dns-records" => (14, 'd', 'n')
    case "url-health" => (16, 'l', 'i')
    case "github-repo-secret" => (18, 'r', 'e')
    case "github-deploy-key" => (17, 'd', 'e')
    case "vercel-project" => (14, 'p', 'r')
    case "vercel-env" => (19, 'e', 'n')
    case "vercel-deployment-url" => (21, 'd', 'e')
    case "cloudflare-dns-api" => (17, 'd', 'n')
    case "resend-domain" => (15, 'd', 'o')
    case "webhook-secret" => (22, 'w', 'e')
    case "provider-gate" => (13, 'p', 'r')
    case _ => (15, 'r', 'e')
  }

  lemma NameHasMark(kind: string)
    ensures var name := Lower(CheckName(kind)); |name| >= 2 && (|name|, name[0], name[1]) == Mark(kind)
  {
    MarkOfName(kind);
    var name := CheckName(kind);
    assert LowerChar(name[0]) == name[0] && LowerChar(name[1]) == name[1];
  }

  lemma MarkOfName(kind: string)
    ensures var name := CheckName(kind); |name| >= 2 && (|name|, name[0], name[1]) == Mark(kind)
    ensures 'a' <= CheckName(kind)[0] <= 'z' && 'a' <= CheckName(kind)[1] <= 'z'
  {
  }

  lemma MarksDiffer(a: string, b: string)
    ensures Mark(a) == Mark(b) <==> SameKind(a, b)
  {
  }

  lemma NamesCoincide(a: string, b: string)
    ensures Lower(CheckName(a)) == Lower(CheckName(b)) <==> SameKind(a, b)
  {
    NameHasMark(a);
    NameHasMark(b);
    MarksDiffer(a, b);
    SameKindSameName(a, b);
    hide CheckName, Mark, SameKind, Lower;
  }

  lemma SameKindSameName(a: string, b: string)
    ensures SameKind(a, b) ==> CheckName(a) == CheckName(b)
  {
  }

  lemma IdentitiesClash(a: Entry, b: Entry)
    ensures EntryIdentity(a) == EntryIdentity(b) <==> Clash(a, b)
  {
    hide Lower, SameKind, CheckName;
    LiveUrlIsNamed();
    match (a, b)
    case (ProviderEntry(_, r, _), ProviderEntry(_, s, _)) => NamesCoincide(r.kind, s.kind);
    case (ProviderEntry(_, r, _), LiveUrlEntry(_)) => OnlyUrlHealth(r.kind);
    case (LiveUrlEntry(_), ProviderEntry(_, s, _)) => OnlyUrlHealth(s.kind);
    case (LiveUrlEntry(_), LiveUrlEntry(_)) =>
  }

  lemma LiveUrlIsNamed()
    ensures CheckName("url-health") == "live_url_healthy"
  {
  }

  lemma OnlyUrlHealth(kind: string)
    ensures Lower(CheckName(kind)) == Lower("live_url_healthy") <==> kind == "url-health"
  {
    LiveUrlIsNamed();
    NamesCoincide(kind, "url-health");
    hide CheckName, Lower;
  }

  lemma IdentitiesAreDistinct(entries: seq<Entry>)
    ensures Distinct(EntryIdentities(entries)) <==> NoClash(entries)
  {
    forall i, j | 0 <= i < |entries| && 0 <= j < |entries|
      ensures EntryIdentities(entries)[i] == EntryIdentities(entries)[j] <==> Clash(entries[i], entries[j])
    {
      IdentitiesClash(entries[i], entries[j]);
    }
    hide Clash, EntryIdentity;
  }

  /** Whatever the entries are, and for both decisions, launch progress and destruction: the
      second stage agrees exactly when no two rows name the same check and each entry passes. */
  lemma JudgedExactly(entries: seq<Entry>, allowHumanGate: bool, note: RepairNote, fingerprint: string -> string,
      show: Show)
    requires ProperNote(note) && forall i :: 0 <= i < |entries| ==> ProviderNamed(entries[i])
    ensures RowsAllowed(EntryRows(entries, note, fingerprint), allowHumanGate, show)
       <==> NoClash(entries) && forall i :: 0 <= i < |entries| ==> Passes(entries[i], allowHumanGate)
  {
    IdentitiesAreDistinct(entries);
    hide RowAllowed, WellFormed, TextField, Strip, Passes, CheckDict, EntryCheck, EntryIdentity, IdentityOf, NoClash;
    var rows := EntryRows(entries, note, fingerprint);
    forall i | 0 <= i < |entries|
      ensures RowAllowed(rows[i], allowHumanGate, show) <==> Passes(entries[i], allowHumanGate)
      ensures Identities(rows, show)[i] == EntryIdentities(entries)[i]
    {
      EntryRowAllowed(entries[i], allowHumanGate, note, fingerprint, show);
      EntryIsWellFormed(entries[i], note, fingerprint, show);
      IsAnObject(EntryCheck(entries[i], note, fingerprint), fingerprint);
    }
    assert Identities(rows, show) == EntryIdentities(entries);
  }

  /** For results the first stage accepts, the second stage lets the launch go on exactly
      when no two rows have the same identity and every pending row is safe in its sense. */
  lemma StagesAgreeExactly(entries: seq<Entry>, note: RepairNote, fingerprint: string -> string, show: Show)
    requires ProperNote(note)
    requires forall i :: 0 <= i < |entries| ==> ProviderNamed(entries[i]) && EntryAcceptable(entries[i], fingerprint)
    ensures RowsAllowed(EntryRows(entries, note, fingerprint), true, show)
       <==> && Distinct(EntryIdentities(entries))
            && forall i :: 0 <= i < |entries| ==> PendingIsSafe(entries[i])
  {
    hide RowsAllowed, EntryRows, EntryIdentities, ProviderNamed, PendingIsSafe;
    JudgedExactly(entries, true, note, fingerprint, show);
    IdentitiesAreDistinct(entries);
    hide NoClash, Passes, EntryAcceptable, Distinct;
    forall i | 0 <= i < |entries| ensures Passes(entries[i], true) <==> PendingIsSafe(entries[i]) {
      AcceptedPasses(entries[i], fingerprint);
    }
  }

  lemma AcceptedPasses(e: Entry, fingerprint: string -> string)
    ensures EntryAcceptable(e, fingerprint) ==> (Passes(e, true) <==> PendingIsSafe(e))
  {
    AcceptedStatus(e, fingerprint);
    StatusesThatPass(e, true);
    hide EntryAcceptable, Passes, EntryStatus;
    PendingOrNot(e);
  }

  lemma PendingOrNot(e: Entry)
    ensures EntryStatus(e) != PENDING ==> PendingIsSafe(e)
  {
  }

  lemma AcceptedStatus(e: Entry, fingerprint: string -> string)
    ensures EntryAcceptable(e, fingerprint) ==> EntryStatus(e) in {PASSED, SKIPPED, PENDING, NEEDS_HUMAN_GATE}
  {
  }

  lemma IsAnObject(c: Check, fingerprint: string -> string)
    ensures CheckDict(c, fingerprint).Obj?
  {
  }

  /** With real booleans for flags and distinct identities, a non-empty report made from
      accepted results always lets the launch go on: the error after the provider checks
      cannot be reached. */
  lemma AcceptedResultsAlwaysProceed(
    entries: seq<Entry>, report: map<string, Value>, note: RepairNote, fingerprint: string -> string, show: Show)
    requires ProperNote(note) && entries != []
    requires Get(report, "checks", Null) == Arr(EntryRows(entries, note, fingerprint))
    ensures (forall i :: 0 <= i < |entries| ==> AcceptedWithRealFlag(entries[i], fingerprint))
            && Distinct(EntryIdentities(entries)) ==>
              AllowsLaunchProgress(report, show)
  {
    if forall i :: 0 <= i < |entries| ==> AcceptedWithRealFlag(entries[i], fingerprint) {
      RealFlagsProceed(entries, report, note, fingerprint, show);
    }
  }

  /** Accepted, with a boolean for its pending_safe flag if it has one. */
  predicate AcceptedWithRealFlag(e: Entry, fingerprint: string -> string) {
    ProviderNamed(e) && EntryAcceptable(e, fingerprint) && (PendingFlag(e).Bool? || PendingFlag(e).Null?)
  }

  lemma RealFlagsProceed(
    entries: seq<Entry>, report: map<string, Value>, note: RepairNote, fingerprint: string -> string, show: Show)
    requires ProperNote(note) && entries != []
    requires Get(report, "checks", Null) == Arr(EntryRows(entries, note, fingerprint))
    requires forall i :: 0 <= i < |entries| ==> AcceptedWithRealFlag(entries[i], fingerprint)
    ensures Distinct(EntryIdentities(entries)) ==> AllowsLaunchProgress(report, show)
  {
    assert forall i :: 0 <= i < |entries| ==> ProviderNamed(entries[i]) && EntryAcceptable(entries[i], fingerprint);
    forall i | 0 <= i < |entries| ensures PendingIsSafe(entries[i]) {
      RealFlagIsSafe(entries[i], fingerprint);
    }
    hide RowsAllowed, EntryRows, AcceptedWithRealFlag, ProviderNamed, EntryAcceptable, PendingIsSafe, EntryIdentities;
    StagesAgreeExactly(entries, note, fingerprint, show);
    assert Rows(report) == EntryRows(entries, note, fingerprint);
  }

  lemma RealFlagIsSafe(e: Entry, fingerprint: string -> string)
    requires AcceptedWithRealFlag(e, fingerprint)
    ensures PendingIsSafe(e)
  {
    hide IsSecretKey;
    PendingSafeIsPublic();
    if e.ProviderEntry? {
      assert Get(Redact(Obj(e.result.details), fingerprint).fields, "pending_safe", Null)
          == Redact(Get(e.result.details, "pending_safe", Null), fingerprint);
    }
  }

  /** Two webhooks with their secrets in place are accepted, yet the report is refused:
      both rows are called webhook / webhook_secret_present. */
  lemma TwoWebhooksAreRefused(note: RepairNote, fingerprint: string -> string, show: Show)
    requires ProperNote(note)
    ensures var entries := [
              ProviderEntry("webhook", Result("webhook", "webhook-secret", "A_SECRET", "ok", map[]), false),
              ProviderEntry("webhook", Result("webhook", "webhook-secret", "B_SECRET", "ok", map[]), false)];
            && (forall i :: 0 <= i < 2 ==> EntryAcceptable(entries[i], fingerprint))
            && !RowsAllowed(EntryRows(entries, note, fingerprint), true, show)
  {
    var entries := [
      ProviderEntry("webhook", Result("webhook", "webhook-secret", "A_SECRET", "ok", map[]), false),
      ProviderEntry("webhook", Result("webhook", "webhook-secret", "B_SECRET", "ok", map[]), false)];
    hide RowsAllowed, EntryRows;
    StagesAgreeExactly(entries, note, fingerprint, show);
    assert EntryIdentities(entries)[0] == EntryIdentities(entries)[1];
  }

  /** A flag that is only truthy, such as the number 1, satisfies the first stage alone. */
  lemma TruthyFlagIsRefused(note: RepairNote, fingerprint: string -> string, show: Show)
    requires ProperNote(note)
    ensures var e :=
      ProviderEntry("github", Result("github", "http-json", "api", "pending", map["pending_safe" := Int(1)]), false);
            && EntryAcceptable(e, fingerprint)
            && !RowsAllowed(EntryRows([e], note, fingerprint), true, show)
  {
    var e := ProviderEntry("github", Result("github", "http-json", "api", "pending", map["pending_safe" := Int(1)]),
      false);
    PendingSafeIsPublic();
    assert Redact(Obj(e.result.details), fingerprint).fields["pending_safe"] == Int(1);
    assert EntryCheckName(e) == "auth_valid";
    assert !PendingIsSafe(e);
    hide RowsAllowed, EntryRows, PendingIsSafe;
    StagesAgreeExactly([e], note, fingerprint, show);
    assert [e][0] == e;
  }
}
