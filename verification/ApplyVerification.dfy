/** The verification that ends an apply (cli.py): live-URL health, provider results and
    webhook secrets go into one report, and the validator judges it at once. */
module ApplyVerification {
  import opened GateAgreement
  import opened Json
  import opened Outcomes
  import opened Sorting
  import opened Text
  import opened VerificationGate
  import opened VerificationReport

  /** The last results of one provider, and whether a repair or a fallback was tried for them. */
  datatype Pack = Pack(provider: string, results: seq<Result>, attempted: bool)

  datatype Webhook = Webhook(name: string, secretName: string, available: bool)

  predicate PackAcceptable(pack: Pack, fingerprint: string -> string) {
    forall i :: 0 <= i < |pack.results| ==> ResultAcceptable(pack.results[i], fingerprint)
  }

  /** `attempted_repair_or_fallback and not acceptable`; results whose overall is pending-safe
      are acceptable. */
  predicate Repaired(pack: Pack, fingerprint: string -> string) {
    pack.attempted && !PackAcceptable(pack, fingerprint)
  }

  function WebhookResult(w: Webhook): Result {
    Result("webhook", "webhook-secret", w.secretName, if w.available then "ok" else "missing",
           map["webhook" := Str(w.name), "secret_name" := Str(w.secretName)])
  }

  // ------------------------------------------------------- what the report is made from

  function EntriesOf(provider: string, results: seq<Result>, repaired: bool): (r: seq<Entry>)
    ensures |r| == |results|
    ensures forall i :: 0 <= i < |r| ==> r[i] == ProviderEntry(provider, results[i], repaired)
  {
    seq(|results|, i requires 0 <= i < |results| => ProviderEntry(provider, results[i], repaired))
  }

  function PackEntries(packs: seq<Pack>, fingerprint: string -> string): seq<Entry> {
    if packs == [] then []
    else
      var last := packs[|packs| - 1];
      PackEntries(packs[..|packs| - 1], fingerprint)
      + EntriesOf(last.provider, last.results, Repaired(last, fingerprint))
  }

  function HealthEntries(health: Option<map<string, Value>>): seq<Entry> {
    if health.Some? then [LiveUrlEntry(health.value)] else []
  }

  function WebhookEntries(webhooks: seq<Webhook>): seq<Entry> {
    EntriesOf("webhook", Map(webhooks, WebhookResult), false)
  }

  /** All that goes into the report, in order. */
  function Entries(health: Option<map<string, Value>>, packs: seq<Pack>, webhooks: seq<Webhook>,
      fingerprint: string -> string): seq<Entry>
  {
    HealthEntries(health) + PackEntries(packs, fingerprint) + WebhookEntries(webhooks)
  }

  ghost predicate Named(packs: seq<Pack>) {
    forall i :: 0 <= i < |packs| ==> Proper(packs[i].provider)
  }

  lemma {:induction false} EntriesAreNamed(packs: seq<Pack>, fingerprint: string -> string)
    requires Named(packs)
    ensures forall e :: e in PackEntries(packs, fingerprint) ==> ProviderNamed(e)
  {
    hide Trimmed;
    if packs != [] {
      EntriesAreNamed(packs[..|packs| - 1], fingerprint);
      assert Proper(packs[|packs| - 1].provider);
    }
  }

  /** Every result of every provider has its entry. */
  lemma {:induction false} ResultsHaveEntries(packs: seq<Pack>, fingerprint: string -> string)
    ensures forall i, j :: 0 <= i < |packs| && 0 <= j < |packs[i].results| ==>
              ProviderEntry(packs[i].provider, packs[i].results[j], Repaired(packs[i], fingerprint))
                in PackEntries(packs, fingerprint)
  {
    hide Repaired;
    if packs != [] {
      var last := packs[|packs| - 1];
      var entries := EntriesOf(last.provider, last.results, Repaired(last, fingerprint));
      ResultsHaveEntries(packs[..|packs| - 1], fingerprint);
      assert forall j :: 0 <= j < |last.results| ==> entries[j] in entries;
    }
  }

  lemma OnePackMore(packs: seq<Pack>, n: nat, done: seq<Entry>, fingerprint: string -> string)
    requires n < |packs|
    ensures var more := EntriesOf(packs[n].provider, packs[n].results, Repaired(packs[n], fingerprint));
            done + PackEntries(packs[..n + 1], fingerprint) == done + PackEntries(packs[..n], fingerprint) + more
  {
    hide EntriesOf, Repaired;
    assert packs[..n + 1][..n] == packs[..n] && packs[..n + 1][n] == packs[n];
  }

  /** The report is about exactly these: the health of the live URL, every last result of every
      provider, and for every webhook whether its secret is there. */
  ghost predicate IsSubject(e: Entry, health: Option<map<string, Value>>, packs: seq<Pack>, webhooks: seq<Webhook>) {
    match e
    case LiveUrlEntry(result) => health == Some(result)
    case ProviderEntry(provider, result, repaired) =>
      || (exists i, j :: 0 <= i < |packs| && 0 <= j < |packs[i].results| && packs[i].provider == provider
                         && packs[i].results[j] == result && (repaired ==> packs[i].attempted))
      || (exists i :: 0 <= i < |webhooks| && !repaired && IsWebhook(e, webhooks[i]))
  }

  predicate IsResult(e: Entry, provider: string, result: Result) {
    e.ProviderEntry? && e.provider == provider && e.result == result
  }

  predicate IsWebhook(e: Entry, w: Webhook) {
    && e.ProviderEntry? && e.provider == "webhook"
    && e.result.provider == "webhook" && e.result.kind == "webhook-secret" && e.result.target == w.secretName
    && e.result.status == (if w.available then "ok" else "missing")
  }

  lemma EveryEntryHasASubject(health: Option<map<string, Value>>, packs: seq<Pack>, webhooks: seq<Webhook>,
      fingerprint: string -> string)
    ensures var entries := Entries(health, packs, webhooks, fingerprint);
            forall e :: e in entries ==> IsSubject(e, health, packs, webhooks)
  {
    var entries := Entries(health, packs, webhooks, fingerprint);
    PackEntriesAreResults(packs, fingerprint);
    var last := WebhookEntries(webhooks);
    forall e | e in last ensures IsSubject(e, health, packs, webhooks) {
      var i :| 0 <= i < |last| && last[i] == e;
      assert IsWebhook(e, webhooks[i]);
    }
    hide PackEntries, WebhookEntries;
  }

  /** Nothing is left out, and nothing counts twice. */
  lemma NothingIsLeftOut(health: Option<map<string, Value>>, packs: seq<Pack>, webhooks: seq<Webhook>,
      fingerprint: string -> string)
    ensures var entries := Entries(health, packs, webhooks, fingerprint);
            && |entries| == (if health.Some? then 1 else 0) + CountOfResults(packs) + |webhooks|
            && (health.Some? ==> LiveUrlEntry(health.value) in entries)
            && (forall i, j :: 0 <= i < |packs| && 0 <= j < |packs[i].results| ==>
                  IsReported(entries, packs[i].provider, packs[i].results[j]))
            && (forall i :: 0 <= i < |webhooks| ==> Mentions(entries, webhooks[i]))
  {
    var first, middle, last := HealthEntries(health), PackEntries(packs, fingerprint), WebhookEntries(webhooks);
    var entries := first + middle + last;
    CountOfEntries(packs, fingerprint);
    ResultsAreReported(packs, fingerprint);
    WebhooksHaveEntries(webhooks);
    assert health.Some? ==> first[0] in first;
    hide PackEntries, WebhookEntries, HealthEntries, IsReported, Mentions;
    forall i, j | 0 <= i < |packs| && 0 <= j < |packs[i].results|
      ensures IsReported(entries, packs[i].provider, packs[i].results[j])
    {
      StaysInside(first, middle, last, packs[i].provider, packs[i].results[j]);
    }
    forall i | 0 <= i < |webhooks| ensures Mentions(entries, webhooks[i]) {
      MentionedAtTheEnd(first + middle, last, webhooks[i]);
    }
  }

  ghost predicate IsReported(entries: seq<Entry>, provider: string, result: Result) {
    exists e :: e in entries && IsResult(e, provider, result)
  }

  lemma ResultsAreReported(packs: seq<Pack>, fingerprint: string -> string)
    ensures forall i, j :: 0 <= i < |packs| && 0 <= j < |packs[i].results| ==>
              IsReported(PackEntries(packs, fingerprint), packs[i].provider, packs[i].results[j])
  {
    ResultsHaveEntries(packs, fingerprint);
    hide PackEntries, Repaired;
    forall i, j | 0 <= i < |packs| && 0 <= j < |packs[i].results|
      ensures IsReported(PackEntries(packs, fingerprint), packs[i].provider, packs[i].results[j])
    {
      var e := ProviderEntry(packs[i].provider, packs[i].results[j], Repaired(packs[i], fingerprint));
      assert e in PackEntries(packs, fingerprint) && IsResult(e, packs[i].provider, packs[i].results[j]);
    }
  }

  lemma StaysInside(first: seq<Entry>, middle: seq<Entry>, last: seq<Entry>, provider: string, result: Result)
    requires IsReported(middle, provider, result)
    ensures IsReported(first + middle + last, provider, result)
  {
    var e :| e in middle && IsResult(e, provider, result);
    assert e in first + middle + last;
  }

  lemma MentionedAtTheEnd(first: seq<Entry>, last: seq<Entry>, w: Webhook)
    requires Mentions(last, w)
    ensures Mentions(first + last, w)
  {
    var e :| e in last && IsWebhook(e, w);
    assert e in first + last;
  }

  ghost predicate Mentions(entries: seq<Entry>, w: Webhook) { exists e :: e in entries && IsWebhook(e, w) }

  lemma WebhooksHaveEntries(webhooks: seq<Webhook>)
    ensures |WebhookEntries(webhooks)| == |webhooks|
    ensures forall i :: 0 <= i < |webhooks| ==> Mentions(WebhookEntries(webhooks), webhooks[i])
  {
    var last := WebhookEntries(webhooks);
    forall i | 0 <= i < |webhooks| ensures Mentions(last, webhooks[i]) {
      assert last[i] in last && IsWebhook(last[i], webhooks[i]);
    }
  }

  function CountOfResults(packs: seq<Pack>): nat {
    if packs == [] then 0 else CountOfResults(packs[..|packs| - 1]) + |packs[|packs| - 1].results|
  }

  lemma {:induction false} CountOfEntries(packs: seq<Pack>, fingerprint: string -> string)
    ensures |PackEntries(packs, fingerprint)| == CountOfResults(packs)
  {
    hide Repaired;
    if packs != [] {
      CountOfEntries(packs[..|packs| - 1], fingerprint);
    }
  }

  lemma {:induction false} PackEntriesAreResults(packs: seq<Pack>, fingerprint: string -> string)
    ensures forall e :: e in PackEntries(packs, fingerprint) ==>
      && e.ProviderEntry?
      && exists i, j :: 0 <= i < |packs| && 0 <= j < |packs[i].results| && packs[i].provider == e.provider
                        && packs[i].results[j] == e.result && (e.repaired ==> packs[i].attempted)
  {
    if packs != [] {
      var init, last := packs[..|packs| - 1], packs[|packs| - 1];
      PackEntriesAreResults(init, fingerprint);
      var entries := EntriesOf(last.provider, last.results, Repaired(last, fingerprint));
      hide PackAcceptable;
      forall e | e in PackEntries(packs, fingerprint)
        ensures e.ProviderEntry?
        ensures exists i, j :: 0 <= i < |packs| && 0 <= j < |packs[i].results| && packs[i].provider == e.provider
                               && packs[i].results[j] == e.result && (e.repaired ==> packs[i].attempted)
      {
        if e in PackEntries(init, fingerprint) {
          var i, j :| 0 <= i < |init| && 0 <= j < |init[i].results| && init[i].provider == e.provider
                      && init[i].results[j] == e.result && (e.repaired ==> init[i].attempted);
          assert packs[i] == init[i];
        } else {
          var j :| 0 <= j < |entries| && entries[j] == e;
          assert packs[|packs| - 1].results[j] == e.result;
        }
      }
    }
  }

  // ------------------------------------------------------- entries and checks

  function Checks(entries: seq<Entry>, note: RepairNote, fingerprint: string -> string): (r: seq<Check>)
    ensures |r| == |entries|
    ensures forall i :: 0 <= i < |entries| ==> r[i] == EntryCheck(entries[i], note, fingerprint)
  {
    seq(|entries|, i requires 0 <= i < |entries| => EntryCheck(entries[i], note, fingerprint))
  }

  lemma ChecksInTwo(a: seq<Entry>, b: seq<Entry>, note: RepairNote, fingerprint: string -> string)
    ensures Checks(a + b, note, fingerprint) == Checks(a, note, fingerprint) + Checks(b, note, fingerprint)
  {
    hide EntryCheck;
  }

  lemma HealthChecks(health: Option<map<string, Value>>, note: RepairNote, fingerprint: string -> string)
    ensures Checks(HealthEntries(health) + PackEntries([], fingerprint), note, fingerprint)
         == if health.Some? then [LiveUrlCheck(health.value, note)] else []
  {
    hide LiveUrlCheck;
  }

  lemma ChecksOfResults(provider: string, results: seq<Result>, repaired: bool, note: RepairNote,
      fingerprint: string -> string)
    ensures ChecksFromResults(provider, results, repaired, note, fingerprint)
         == Checks(EntriesOf(provider, results, repaired), note, fingerprint)
  {
    hide CheckFromResult;
  }

  lemma RowsOfChecks(entries: seq<Entry>, note: RepairNote, fingerprint: string -> string)
    ensures CheckDicts(Checks(entries, note, fingerprint), fingerprint) == EntryRows(entries, note, fingerprint)
  {
    hide EntryCheck, CheckDict;
  }

  // ------------------------------------------------------- the verification

  /** The report lets the launch go on. */
  ghost predicate ReadyToProceed(entries: seq<Entry>) {
    && entries != [] && NoClash(entries)
    && forall i :: 0 <= i < |entries| ==> Passes(entries[i], true)
  }

  ghost predicate AllAcceptable(packs: seq<Pack>, fingerprint: string -> string) {
    forall i :: 0 <= i < |packs| ==> PackAcceptable(packs[i], fingerprint)
  }

  lemma AcceptedEntriesPass(health: Option<map<string, Value>>, packs: seq<Pack>, webhooks: seq<Webhook>,
      fingerprint: string -> string)
    requires var entries := Entries(health, packs, webhooks, fingerprint);
             forall i :: 0 <= i < |entries| ==> AcceptedWithRealFlag(entries[i], fingerprint)
    ensures AllAcceptable(packs, fingerprint)
    ensures var entries := Entries(health, packs, webhooks, fingerprint);
            forall i :: 0 <= i < |entries| ==> Passes(entries[i], true)
  {
    var entries := Entries(health, packs, webhooks, fingerprint);
    hide EntriesOf, ResultAcceptable, PendingIsSafe, PendingFlag, EntryStatus, ProviderNamed, Passes;
    ResultsHaveEntries(packs, fingerprint);
    hide PackEntries, Repaired;
    forall i | 0 <= i < |entries| ensures Passes(entries[i], true) {
      RealFlagIsSafe(entries[i], fingerprint);
      AcceptedPasses(entries[i], fingerprint);
    }
    forall i, j | 0 <= i < |packs| && 0 <= j < |packs[i].results|
      ensures ResultAcceptable(packs[i].results[j], fingerprint)
    {
      var e := ProviderEntry(packs[i].provider, packs[i].results[j], Repaired(packs[i], fingerprint));
      assert e in PackEntries(packs, fingerprint) && e in entries;
      assert AcceptedWithRealFlag(e, fingerprint);
    }
  }

  lemma TwoWebhooksClash(health: Option<map<string, Value>>, packs: seq<Pack>, webhooks: seq<Webhook>,
      fingerprint: string -> string)
    requires |webhooks| >= 2
    ensures !NoClash(Entries(health, packs, webhooks, fingerprint))
  {
    var entries := Entries(health, packs, webhooks, fingerprint);
    var last := WebhookEntries(webhooks);
    hide PackEntries, HealthEntries;
    var n := |entries| - |last|;
    assert entries[n] == last[0] && entries[n + 1] == last[1];
    hide Entries, WebhookEntries;
    assert Clash(entries[n], entries[n + 1]);
  }

  /** What goes into the report is named when the providers are. */
  lemma AllAreNamed(health: Option<map<string, Value>>, packs: seq<Pack>, webhooks: seq<Webhook>,
      fingerprint: string -> string)
    requires Named(packs)
    ensures var entries := Entries(health, packs, webhooks, fingerprint);
            forall i :: 0 <= i < |entries| ==> ProviderNamed(entries[i])
  {
    EntriesAreNamed(packs, fingerprint);
    assert Proper("webhook");
    hide PackEntries, Proper;
  }

  /** One provider's results go into the report. */
  method AddPack(report: Report, pack: Pack, ghost before: seq<Entry>, note: RepairNote, fingerprint: string -> string)
    requires report.checks == Checks(before, note, fingerprint)
    modifies report
    ensures report.checks == Checks(
              before + EntriesOf(pack.provider, pack.results, Repaired(pack, fingerprint)), note, fingerprint)
  {
    hide EntriesOf, Checks, Repaired;
    var repaired := Repaired(pack, fingerprint);
    ChecksOfResults(pack.provider, pack.results, repaired, note, fingerprint);
    ChecksInTwo(before, EntriesOf(pack.provider, pack.results, repaired), note, fingerprint);
    report.AddProviderResults(pack.provider, pack.results, repaired, note, fingerprint);
  }

  /** `verification_report_allows_launch_progress(verification_report.to_dict())`. */
  method Judge(report: Report, ghost entries: seq<Entry>, note: RepairNote, fingerprint: string -> string, show: Show)
    returns (ready: bool)
    requires ProperNote(note) && forall i :: 0 <= i < |entries| ==> ProviderNamed(entries[i])
    requires report.checks == Checks(entries, note, fingerprint)
    ensures ready <==> ReadyToProceed(entries)
  {
    hide Checks, RowsAllowed, EntryRows, Passes, NoClash, ProviderNamed, ProperNote, IsOverall;
    var overall, counts, rows := report.ToDict(fingerprint);
    RowsOfChecks(entries, note, fingerprint);
    JudgedExactly(entries, true, note, fingerprint, show);
    var dict := map["overall" := Str(overall), "counts" := Obj(map s | s in counts :: Int(counts[s])),
                    "checks" := Arr(rows)];
    assert Rows(dict) == rows;
    var failures := VerificationFailures(dict, true, show);
    return failures == [];
  }

  /** The report, unless a provider's results are not acceptable and have to be. */
  method Collect(health: Option<map<string, Value>>, packs: seq<Pack>, webhooks: seq<Webhook>, allowIncomplete: bool,
      note: RepairNote, fingerprint: string -> string)
    returns (report: Report, r: Fault)
    ensures r.Fine? <==> allowIncomplete || AllAcceptable(packs, fingerprint)
    ensures r.Fine? ==> report.checks == Checks(Entries(health, packs, webhooks, fingerprint), note, fingerprint)
  {
    hide EntriesOf, Checks, PackAcceptable, Repaired;
    report := new Report();
    ghost var done := HealthEntries(health);
    if health.Some? {
      report.AddLiveUrl(health.value, note);
    }
    HealthChecks(health, note, fingerprint);
    for n := 0 to |packs|
      invariant report.checks == Checks(done + PackEntries(packs[..n], fingerprint), note, fingerprint)
      invariant !allowIncomplete ==> AllAcceptable(packs[..n], fingerprint)
    {
      AddPack(report, packs[n], done + PackEntries(packs[..n], fingerprint), note, fingerprint);
      OnePackMore(packs, n, done, fingerprint);
      if !allowIncomplete && !PackAcceptable(packs[n], fingerprint) {
        return report, FuseKitFault("Provider verification failed.");
      }
    }
    assert packs[..|packs|] == packs;
    hide PackEntries, HealthEntries;
    report.AddProviderResults("webhook", Map(webhooks, WebhookResult), false, note, fingerprint);
    ChecksOfResults("webhook", Map(webhooks, WebhookResult), false, note, fingerprint);
    ChecksInTwo(done + PackEntries(packs, fingerprint), WebhookEntries(webhooks), note, fingerprint);
    r := Fine;
  }

  /** `_verify_apply_live_url`, `_verify_provider_packs` and the decision after them; `health` is
      the health result where a live URL is set. */
  method VerifyApply(health: Option<map<string, Value>>, packs: seq<Pack>, webhooks: seq<Webhook>,
      allowIncomplete: bool, note: RepairNote, fingerprint: string -> string, show: Show)
    returns (r: Outcome<bool>)
    requires ProperNote(note) && Named(packs)
    ensures var entries := Entries(health, packs, webhooks, fingerprint);
            // incomplete runs learn whether they are ready, complete ones go on exactly when they are
            && (allowIncomplete ==> r.Returned? && (r.value <==> ReadyToProceed(entries)))
            && (!allowIncomplete ==>
                  && (r.Returned? <==> AllAcceptable(packs, fingerprint) && ReadyToProceed(entries))
                  && (r.Returned? ==> r.value))
            // with boolean flags and distinct rows the raise behind the checks is out of reach
            && (&& entries != [] && NoClash(entries)
                && (forall i :: 0 <= i < |entries| ==> AcceptedWithRealFlag(entries[i], fingerprint)) ==>
                  r == Returned(true))
            // and two webhooks are always one too many
            && (|webhooks| >= 2 ==> r != Returned(true))
  {
    hide Entries, Checks, PackAcceptable, NoClash, AcceptedWithRealFlag, Named, ProperNote, Passes,
      ProviderNamed;
    ghost var entries := Entries(health, packs, webhooks, fingerprint);
    AllAreNamed(health, packs, webhooks, fingerprint);
    if forall i :: 0 <= i < |entries| ==> AcceptedWithRealFlag(entries[i], fingerprint) {
      AcceptedEntriesPass(health, packs, webhooks, fingerprint);
    }
    if |webhooks| >= 2 {
      TwoWebhooksClash(health, packs, webhooks, fingerprint);
    }
    var report, collected := Collect(health, packs, webhooks, allowIncomplete, note, fingerprint);
    :- collected;
    var ready := Judge(report, entries, note, fingerprint, show);
    if !ready && !allowIncomplete {
      return Raised(FuseKitFault("Verification did not reach a passed or pending-safe state."));
    }
    return Returned(ready);
  }
}
