# FuseKit, modelled and verified

FuseKit provisions a disposable cloud worker, configures an app's providers on it, decides
from the collected proof whether the worker may be destroyed, destroys it, and publishes what
is left.  This project models the code on which that chain rests and proves what it keeps.
External calls (cloud, shell, network, file system) may succeed or fail at every step; hashes,
secret detectors and codecs are arbitrary functions.  `dafny verify dfyconfig.toml` checks it
all.

## How the code is modelled

Code that computes is a function; code that changes things step by step is a method with
loops, or a class whose methods change its fields; each method is tied to a specification
about which the lemmas are proved.

| files | what they hold |
|---|---|
| Launch, Teardown | one OCI launch with the worker-replacement drill, and the accounting that decides whether a worker counts as destroyed |
| VerificationReport, Redaction, VerificationGate, GateAgreement, ApplyVerification | provider results become report rows, are redacted, and are judged by a validator of its own |
| Playbook, PlaybookGate | the playbook generator and the validator of playbooks |
| ProviderSetup | the ordered, resumable setup of providers and the wait for DNS approval |
| GateHistogram, Signatures | consistency of the run record: totals, counts, captures, and comparison with artifacts |
| Folders, Publish, ArtifactCopy, JobStore | files written with a failure possible at every step; the ghost history of a folder holds every state a crash could leave |
| Disk, Extraction, Cleanup | directory trees: archive extraction and swap, deletion of worker state |
| PaymentReceipts, LiveCheckoutProof, ProofArtifacts | the two payment artifacts, checked once by the job store and once, by other rules, by the proof of a live checkout |
| PriceLabel, PricePrinting | reading an amount out of a price label |
| ScriptJson, ScriptJsonProofs | JSON inside a script element |
| ShellQuote | quoting for the POSIX shell |
| Json, Text, Sorting, Outcomes | shared vocabulary |

A function value named `show` stands for Python's `str` of a value that is not text.  A list
of failure messages is modelled by an enumeration: what the messages say is not.

## Where the code does not do what one would expect

Each of these is a lemma with the exact condition or with a concrete input.

- The embedded JSON reads back unless a string holds an unpaired high surrogate directly
  before an unpaired low one; those two come back as one character
  (`ReadsBackExactly`, `AdjacentSurrogatesMerge`).
- Two webhooks of one provider are acceptable one by one and refused together, because a
  report names them alike; a `pending_safe` that is truthy but not `true` is accepted by one
  stage and refused by the next (`TwoWebhooksAreRefused`, `TruthyFlagIsRefused`,
  `VerifyApply`).
- Adding a row to an empty report can turn refusal into permission
  (`AddingAFirstRowCanHelp`); adding one to any other report cannot.
- Two captured targets of one of cloudflare, github and vercel get the same step id, and the
  generator's own playbook is then refused (`TwoTokensClash`, `TwoTokensAreRefused`,
  `GeneratedPlaybookAccepted`).
- A failed drill can leave two workers alive, one of them recorded nowhere
  (`BothWorkersCanSurvive`, `TwoSurviveOnlyAFailedDrill`).
- The workspace_detonated flag, the step of a resumed job and the receipt outlive their run:
  after a later launch that leaves a worker each may say that it was destroyed
  (`WhenPapersLie` has the exact conditions, `StalePapersMislead` the runs).
- The refresh of the retrieved artifacts marks detonate.workspace as done whatever the
  teardown came to, so the published step can lie beside a receipt that says incomplete
  (`WhenPapersLie`, `PublishedStepMisleads`).
- The job store writes files of any size and reads none above 1 MiB (`ReadsBack`,
  `StoredReceiptReadsBack`, `StoredResponseReadsBack`).
- The job store's validator of webhook receipts accepts every job id; the proof blocks those
  that are no hosted ids or look private.  Only the guards around the validator keep such
  receipts out of the store (`EveryIdHasAReceipt`, `AcceptedReceiptBlockers`,
  `StoredReceiptBlockers`).
- A refused archive leaves what an earlier, interrupted extraction left in staging, and an
  archive whose first wanted member resolves to the staging directory itself leaves a file
  there, at which every later run fails without removing it (`Extract`).
- When the old destination has been removed and the move of the new tree fails, staging is
  swept as well: both trees can be gone (`Extract` has the exact condition).
- Preserving a path does not protect it when a directory above it is deleted (`Detonate`).
- Counts of wake events that never occurred are not checked (`StrayCountsPass`).
- Some of the three files of the final refresh may already be new when it fails, but always
  the first ones in order; and an exception that is no operating-system error leaves
  temporaries (`RefreshThree`, `InterruptedRefresh`).

## Model

| member | source | states |
|---|---|---|
| Teardown.DetonateOciWorkspace | src/fusekit/cli.py:2459-2505 | the report is complete exactly when the cloud call returned with all resources deleted, nothing failed, and the remote cleanup raised or returned a complete proof; a complete report means the worker is gone |
| Teardown.MarkRemoteWorkerDetonated | src/fusekit/cli.py:2481-2492 | afterwards the report is complete iff it was before, or says nothing of the worker and shows all cloud resources deleted with no other failure; what it says of anything but the worker stays |
| Teardown.CompletenessOfReport | src/fusekit/cli.py:2743-2804 | for all outcomes of the two calls, the merged and marked report is complete iff those outcomes prove destruction |
| Teardown.CleanupProofIsComplete | src/fusekit/runner/remote.py:675-689 | the canonical cleanup proof passes the completeness check that the launcher applies |
| Teardown.HasDuplicateStrings | src/fusekit/cli.py:2873-2882 | true exactly when two entries are the same non-empty text once stripped |
| Teardown.WorkspaceDetonationMissing | src/fusekit/cli.py:2761-2804 | a cloud resource is named iff a key that would prove its deletion is absent, the remote worker iff its cleanup proof is absent or incomplete, and nothing else is ever named |
| Teardown.CompleteProofNamesEachOnce | src/fusekit/cli.py:2851-2870 | a proof accepted as complete names every process and every path that must be gone, each exactly once, white space aside |
| Launch.Run.Launch | src/fusekit/cli.py:2252-2440 | whatever fails and whatever earlier runs left: it returns iff every call on its path works, preflight included; who survives, and that no failed preflight destroys; at most two workers, two only in the drill; when each paper lies |
| Launch.CompletesWhenEveryCallWorks | src/fusekit/cli.py:2252-2440 | the end of a run is completion iff every call on the path it takes works, the path spelled out in the outcomes of the calls alone |
| Launch.EveryWorkerIsAccountedFor | src/fusekit/cli.py:2252-2440 | each worker lives at the end iff it came into being and none of the teardowns meant for it that the run reaches is effective |
| Launch.StoppedByPreflight | src/fusekit/cli.py:2397-2414 | a run whose preflight or whose marking as safe fails keeps its last worker and leaves step, flag and receipt as they were |
| Launch.Run.Drill | src/fusekit/cli.py:2508-2574 | succeeds exactly when the original worker is proved destroyed and the replacement resumes; otherwise exactly the stated workers survive |
| Launch.Run.RecordDetonation | src/fusekit/cli.py:2585-2601 | the receipt says what the report proves whether or not the call raises; flag and step follow it; a raise leaves the step alone and sets the flag only for a proved teardown |
| Launch.Run.Abandon | src/fusekit/cli.py:2307-2376 | a failed setup or a refused report always raises; its teardown, unless skipped, decides which worker is left and what step, flag, receipt and retrieved artifacts say |
| Launch.Run.AttachProof | src/fusekit/cli.py:2604-2639 | a copied receipt is the retrieved one even if what follows fails; then none, one, two or three of the files say the step is done, as far as the refresh got; nothing happens without a receipt |
| ArtifactCopy.CopyProof | src/fusekit/cli.py:2604-2702 | on the files: the receipt is new iff its checks and its copy work; the first of the three files are new as far as the first failing step of the refresh lets them; success iff all works |
| ArtifactCopy.FilesSayWhatTheLaunchSays | src/fusekit/cli.py:2604-2702 | whatever fails, the files read back as the launch's own account of the copy, when the new contents say the step is done |
| Launch.WhenPapersLie | src/fusekit/cli.py:2225-2249 | at every exit: flag, step or receipt says destroyed beside a living worker iff it said so before and the run left it; the published step says so iff it did when retrieved or the refresh got to it, and is true iff the teardown destroyed the worker |
| Launch.WhatSuccessDestroyed | src/fusekit/cli.py:2377-2440 | a launch that returns 0 after a teardown had the final worker destroyed and proved so, and the original one too if the drill ran |
| Launch.TwoSurviveOnlyAFailedDrill | src/fusekit/cli.py:2508-2574 | never more than two workers survive; two do iff the drill failed with its replacement up and neither teardown effective, or leaked |
| Launch.BothWorkersCanSurvive | src/fusekit/cli.py:2545-2574 | in every run that reaches the drill, brings the replacement up and has neither teardown effective, for whatever reason, both survive |
| Launch.ProvenMeansDestroyed | src/fusekit/cli.py:2743-2804 | what the report proves destroyed is destroyed |
| Launch.StalePapersMislead | src/fusekit/runner/run_state.py:147-153 | in every run that leaves a worker, a flag set by an earlier run says it was destroyed, and so do a step already done and a complete receipt unless the run wrote them |
| Launch.PublishedStepMisleads | src/fusekit/cli.py:2666-2671 | a run without report whose teardown fails: all three retrieved files say the step is done, beside a receipt that says incomplete and a living worker |
| VerificationReport.Report.ToDict | src/fusekit/verification_report.py:168-192 | counts are the exact histogram of all statuses, the overall is what the statuses imply, and the rows are the checks in order |
| VerificationReport.Report.AddProviderResults | src/fusekit/verification_report.py:156-166 | appends exactly one check for each result, in order; a row has the matching word for ok, skipped, pending and needs_human_gate, else repairing or failed as a repair was tried; the checks that may wait are named after their kinds |
| VerificationReport.CountIsPositive | src/fusekit/verification_report.py:168-192 | a status is counted iff a check has it |
| VerificationGate.VerificationFailures | src/fusekit/detonation/preflight.py:492-564 | no failures iff the report is non-empty, all rows are well formed and allowed, and identities are distinct letter case aside |
| VerificationGate.ShapeFailures | src/fusekit/detonation/preflight.py:492-564 | no failures iff the row is well formed |
| VerificationGate.OrderDoesNotMatter | src/fusekit/detonation/preflight.py:492-564 | permuting the rows never changes the decision |
| VerificationGate.AddingARowNeverHelps | src/fusekit/detonation/preflight.py:492-564 | a row added anywhere never turns refusal of a non-empty report into permission |
| VerificationGate.AddingAFirstRowCanHelp | src/fusekit/detonation/preflight.py:492-564 | for the empty report it can |
| VerificationGate.DetonationImpliesLaunchProgress | src/fusekit/detonation/preflight.py:460-469 | permission to destroy implies permission to go on |
| VerificationGate.AllowedReportIsPassedOrPending | src/fusekit/verification_report.py:168-192 | the overall of a report that allows destruction is passed or pending |
| GateAgreement.StagesAgreeExactly | src/fusekit/detonation/preflight.py:492-564 | for entries the first stage accepts, with non-empty trimmed provider names: after translation, nesting and redaction the validator lets the launch go on iff identities are distinct and every pending entry is really flagged safe |
| GateAgreement.AcceptedResultsAlwaysProceed | src/fusekit/cli.py:1464-1473 | accepted results with non-empty trimmed provider names, boolean or absent flags and distinct identities always allow launch progress, so the raise behind the provider checks is unreachable |
| GateAgreement.JudgedExactly | src/fusekit/detonation/preflight.py:492-564 | for any named entries and both decisions: progress or destruction is allowed iff no two name the same check and each result is ok, skipped, or pending with a literal flag or a kind that may wait, or, for progress alone, at a human gate |
| GateAgreement.NamesCoincide | src/fusekit/verification_report.py:242-258 | two kinds of results are reported under one name iff they are equal, both for DNS records, or both without a name of their own |
| ApplyVerification.VerifyApply | src/fusekit/cli.py:1455-1473 | report and validator run in sequence: a complete apply goes on iff all provider results are acceptable and the report passes; an incomplete one learns whether it passes; boolean flags and distinct rows always go on; two webhooks never do |
| ApplyVerification.Collect | src/fusekit/cli.py:4835-4953 | the report gets the health row, every result of every provider in order and the webhook rows, unless a provider's results are not acceptable and have to be |
| ApplyVerification.NothingIsLeftOut | src/fusekit/cli.py:4835-4953 | the report has one row for the health check, for every last result of every provider and for every webhook, and as many rows as these are |
| ApplyVerification.EveryEntryHasASubject | src/fusekit/cli.py:4835-4953 | and no row is about anything else; a webhook row says ok iff its secret is there |
| GateAgreement.FlagSurvives | src/fusekit/audit.py:25-41 | the pending_safe flag read after redaction is the flag put in |
| GateAgreement.TwoWebhooksAreRefused | src/fusekit/verification_report.py:242-258 | two acceptable webhook results share a row identity and are refused |
| GateAgreement.TruthyFlagIsRefused | src/fusekit/cli.py:5491-5499 | a flag that is truthy but not true is acceptable here and refused by the validator |
| Redaction.NoSecretMemberSurvives | src/fusekit/audit.py:25-41 | in every redacted tree all members with secret names hold masks |
| Redaction.OnlyFingerprintsAreRevealed | src/fusekit/audit.py:25-41 | two trees redact alike iff they differ only at secret names, where both hold non-empty texts with equal fingerprints or neither holds such a text |
| Redaction.PublicPathsSurvive | src/fusekit/audit.py:25-41 | what lies on a path of public names is found there, redacted, after redaction |
| Playbook.ProviderPlaybook | src/fusekit/cli.py:4430-4558 | each fixed step is there iff some record meets its rule, routes iff nothing else is called for; a value is captured iff asked for, once; every step carries the provider, route, control, actor and proof of its id; in fixed order |
| Playbook.StepsAreAsRecorded | src/fusekit/cli.py:4430-4558 | the same of the specified list of steps, whose rules are spelled out over the records |
| Playbook.ProviderOfTarget | src/fusekit/cli.py:4703-4714 | a value belongs to the first record that names it together with a provider, else to the provider known by its name |
| Playbook.EveryRecordIsRead | src/fusekit/cli.py:4625-4640 | the records are exactly the routes of all runs, each under the trimmed lower-case name of its provider |
| Playbook.SortedGateTargets | src/fusekit/cli.py:4693-4700 | the one sorted listing of the gate targets of all routes |
| Playbook.CaptureSteps | src/fusekit/cli.py:4430-4558 | one capture for each target that has none of its own, no target twice |
| PlaybookGate.PlaybookFailures | src/fusekit/detonation/preflight.py:3133-3243 | no failures iff there are steps, each passes the actor, control, proof and resume rules, ids are distinct and the required pairs in order |
| PlaybookGate.AcceptedStepsFit | src/fusekit/detonation/preflight.py:3133-3243 | a step is accepted iff its texts are present and trimmed and, route by route, its actor, control, proof and resume event are the required ones |
| PlaybookGate.OrderFailures | src/fusekit/detonation/preflight.py:3350-3377 | no failures iff ids are distinct and every required pair is in order |
| PlaybookGate.GeneratedPlaybookAccepted | src/fusekit/cli.py:4430-4622 | for all routes with at least one record, the generated playbook is accepted iff no token provider has two captured targets |
| PlaybookGate.GeneratedInOrder | src/fusekit/detonation/preflight.py:3350-3377 | every generated playbook, accepted or not, has the required pairs in order |
| PlaybookGate.IdsOfGenerated | src/fusekit/cli.py:4430-4558 | the ids are distinct iff no token provider has two captured targets |
| PlaybookGate.WhenIdsClash | src/fusekit/cli.py:4561-4589 | two different steps share an id iff both capture the token of one token provider |
| PlaybookGate.TwoTokensClash | src/fusekit/cli.py:4430-4558 | for every token provider and any two targets, two gates yield exactly these two targets and a playbook that is not acceptable |
| PlaybookGate.TwoTokensAreRefused | src/fusekit/detonation/preflight.py:3133-3243 | the generator run on two such gates and the validator run on what it built: failures are reported |
| ProviderSetup.OrderIsAListing | src/fusekit/cli.py:4043-4055 | the order lists every provider once, by priority then name, DNS after all others |
| ProviderSetup.OrderByPlace | src/fusekit/cli.py:4043-4055 | GitHub, Resend and Vercel come first and in this order, Cloudflare and DNS last, the rest by name |
| ProviderSetup.AwaitDnsApproval | src/fusekit/cli.py:3715-3764 | goes on waiting iff every round goes by; otherwise the first round that does not ends it, with the verdict and the fault of the last call that round made |
| ProviderSetup.WaitIsDecided | src/fusekit/cli.py:3715-3764 | approved iff some round approves with its record written after rounds that went by; refused iff one reaches the limit; failed iff one fails, with the fault of its last call and whether it had approved; waiting otherwise |
| ProviderSetup.LimitBoundsTheWait | src/fusekit/cli.py:3851-3854 | with a positive limit the wait is over within that many rounds, with a negative one after the first, without one no limit ever ends it |
| ProviderSetup.Setup.MaybeAwaitApproval | src/fusekit/cli.py:4019-4033 | where approval is asked for: finishes iff the wait approves, refuses iff it reaches the limit, breaks iff it fails and with that fault; elsewhere always finishes; both approvals afterwards are fixed on every exit |
| ProviderSetup.Setup.RunManifest | src/fusekit/cli.py:3966-4016 | steps name wanted providers, each once, in their places, and say what the calls made of them; a finished run without a human gate has one step for every service name and an added Cloudflare; exactly when it finishes; every ending explained |
| ProviderSetup.ToldPlainly | src/fusekit/cli.py:3966-4016 | without gates it finishes iff for every wanted provider loading works, a missing input is allowed or run and record work, and DNS is cleared; wanted are the lower-cased service names, and Cloudflare for domains without a DNS service |
| ProviderSetup.EndingsExplained | src/fusekit/cli.py:3966-4016 | refused or waiting: a DNS provider's turn, approval asked for, the wait says so; missing input: that provider lacks it; broken: one of its calls failed; undisturbed setups finish |
| ProviderSetup.DnsWaitsForTheOthers | src/fusekit/cli.py:3966-4016 | no provider has two turns, and a DNS provider has its turn only after all others had theirs without a human gate |
| GateHistogram.ProviderGatesFailures | src/fusekit/detonation/preflight.py:2345-2444 | no failures iff ids are distinct, the status table is exactly the histogram of the records, the total is their number and the provider list names exactly their providers |
| GateHistogram.GateByKeys | src/fusekit/detonation/preflight.py:2447-2499 | a gate record passes iff its keys are known, it names itself, its status and its provider, and each member fits its key: no text under a public key looks like a credential |
| GateHistogram.StatusesSumToTotal | src/fusekit/detonation/preflight.py:2345-2444 | in a section without failures the status counts are positive and add up to the total |
| GateHistogram.WakeEventsFailures | src/fusekit/detonation/preflight.py:2502-2600 | no failures iff events are well formed and prove nothing twice, and every name that occurs has its exact count |
| GateHistogram.EventByKeys | src/fusekit/detonation/preflight.py:2603-2653 | an event passes iff its keys are known, it tells schema, name and gate, and each member fits its key |
| GateHistogram.EventsAreDistinct | src/fusekit/detonation/preflight.py:2554-2572 | any two events of a clean section differ in name, gate or target, and in id when they have one |
| GateHistogram.OccurringCountsSumToTotal | src/fusekit/detonation/preflight.py:2502-2600 | the counts of the names that occur add up to the total; the table is the histogram iff it lists no other name |
| GateHistogram.StrayCountsPass | src/fusekit/detonation/preflight.py:2590-2599 | any number may be given for a name that never occurs |
| GateHistogram.GateWakeFailures | src/fusekit/detonation/preflight.py:2656-2690 | no failures iff every captured target of every gate is among the captured pairs |
| GateHistogram.CapturesAreProved | src/fusekit/detonation/preflight.py:2656-2690 | with both sections clean that means: every target a gate captured has an event saying so, for that very gate and target |
| Signatures.Signature | src/fusekit/detonation/preflight.py:1669-1691 | the loop yields the sorted rows of the objects among the records, and nothing iff there are none |
| Signatures.ProviderGatesMatch | src/fusekit/detonation/preflight.py:1628-1640 | accepts iff the artifact has no gates, or both sides hold equally many and like ones equally often: like in id, provider, status, classification, target, last wake event and its id, and in captures |
| Signatures.GateRowsAgree | src/fusekit/detonation/preflight.py:1669-1691 | two gates have equal rows iff these seven stripped texts agree, an absent status reading as unknown, and each target was captured equally often |
| Signatures.EventRowsAgree | src/fusekit/detonation/preflight.py:1722-1744 | the same for events: id, event, gate_id, provider, classification, status, target and captures |
| Signatures.WakeEventsMatch | src/fusekit/detonation/preflight.py:1643-1654 | accepts iff the run record has no events, or both sides hold equally many events and like ones equally often |
| Signatures.VerificationMatches | src/fusekit/detonation/preflight.py:1568-1582 | accepts iff the artifact has no checks, or verifiers and embedded report hold equally many, and what each check says equally often |
| Signatures.CheckRowsAgree | src/fusekit/detonation/preflight.py:1934-1959 | two checks compare alike iff provider and name agree in lower case, both or neither wait safely, and their statuses agree |
| Signatures.VerifierRowsAgree | src/fusekit/detonation/preflight.py:1962-1980 | a verifier compares like a check iff provider, name and status agree and its literal flag says whether the check waits safely |
| Signatures.EveryObjectCounts | src/fusekit/detonation/preflight.py:1669-1691 | no object of a list is passed over, and none counts twice |
| Signatures.OrderOfRecordsIsIrrelevant | src/fusekit/detonation/preflight.py:1722-1744 | records in any other order compare alike |
| Signatures.OrderOfTargetsIsIrrelevant | src/fusekit/detonation/preflight.py:1669-1691 | gate rows are equal iff their words are and the same targets were captured equally often, in whatever order |
| Sorting.SameSortedForm | src/fusekit/detonation/preflight.py:1934-1980 | sorted lists are equal iff the lists hold the same elements equally often |
| Publish.CopyFileAtomically | src/fusekit/cli.py:2721-2740 | the copy is made iff every step works; at every moment the target is wholly old or wholly new and nothing else changes; exactly when the temporary survives, never after a handled failure |
| Publish.ClearTemp | src/fusekit/cli.py:2734-2740 | succeeds iff nothing is in the way or it is a file that can be unlinked; then no temporary is there; otherwise all is as before |
| Publish.RefreshThree | src/fusekit/cli.py:2677-2702 | succeeds iff all nine steps do; at every moment a prefix of the three files is new, and the first failing step fixes which; exactly which temporaries survive, none after a handled failure |
| Publish.InterruptedRefresh | src/fusekit/cli.py:2677-2702 | interrupted by an exception that is no operating-system error before the first replacement, it leaves all three temporaries |
| JobStore.FileNamesAreApart | src/fusekit/hosted/job_store.py:250-257 | two artifacts share a file iff they are the same artifact of the same job |
| JobStore.HostedIdsSpelled | src/fusekit/hosted/job_store.py:106 | a hosted id is the prefix and 8 to 160 letters, digits, underscores and hyphens, and nothing else is one |
| JobStore.WritePublicPayload | src/fusekit/hosted/job_store.py:457-487 | at every moment the file is wholly old or wholly new and only its own temporary differs besides; it is new iff the replace was reached; no temporary survives a handled failure |
| JobStore.Put | src/fusekit/hosted/job_store.py:140-159 | a job that is not storable changes nothing; a storable one is written with the guarantees of a public payload |
| JobStore.OtherArtifactsStay | src/fusekit/hosted/job_store.py:250-257 | at every moment of a write the files of other ids and other kinds are as before |
| JobStore.ReadsBack | src/fusekit/hosted/job_store.py:118-138 | a stored job is read back iff its file is at most 1 MiB and it is asked for by its own id; otherwise reading raises |
| JobStore.ReadersSeeOldOrNew | src/fusekit/hosted/job_store.py:118-159 | at every moment of a put a reader of any job gets what it got before, or, for that job, what it will get afterwards |
| PaymentReceipts.PutWebhookReceipt | src/fusekit/hosted/job_store.py:161-187 | stores exactly the receipts its validator accepts, with the guarantees of a public payload, and otherwise changes nothing |
| PaymentReceipts.PutStartResponse | src/fusekit/hosted/job_store.py:189-215 | the same for start responses |
| LiveCheckoutProof.WebhookBlockers | src/fusekit/hosted/live_checkout_proof.py:264-293 | no blockers iff the job store's validator accepts the receipt for the job it names and that id is public |
| LiveCheckoutProof.AcceptedReceiptBlockers | src/fusekit/hosted/live_checkout_proof.py:425-430 | a receipt the store's validator accepts for an id is free of blockers iff the id is a hosted id and does not look private |
| LiveCheckoutProof.StoredReceiptBlockers | src/fusekit/hosted/job_store.py:161-187 | a receipt the store stores is blocked by the proof iff its id looks private, and never when the detectors see a private-looking hosted id in the text that holds it |
| LiveCheckoutProof.EveryIdHasAReceipt | src/fusekit/hosted/job_store.py:343-374 | for every id, private-looking or not, there is a receipt the store's validator accepts |
| LiveCheckoutProof.StartAgrees | src/fusekit/hosted/job_store.py:377-454 | the proof's rules for a start response hold iff the store accepts it without its job token and the charge and the hashes are proved |
| LiveCheckoutProof.DispatchAgrees | src/fusekit/hosted/live_checkout_proof.py:366-401 | the store's dispatch rules are the proof's dispatch rules and its binding rules together |
| LiveCheckoutProof.PaymentBlockers | src/fusekit/hosted/live_checkout_proof.py:314-363 | no blockers iff the payment is paid and proved, with a label that names exactly the charged amount; raises iff reading the label overflows |
| LiveCheckoutProof.HashesSpelled | src/fusekit/hosted/billing.py:861-867 | a hash counts iff it is the prefix and 64 lower-case hexadecimal digits |
| LiveCheckoutProof.BuildProof | src/fusekit/hosted/live_checkout_proof.py:98-176 | ready iff the store accepts both artifacts for one public job and the charge, the hashes and the commit are good; each flag, ready or not, is what the artifacts say at its path; blockers never repeat |
| LiveCheckoutProof.Unique | src/fusekit/hosted/live_checkout_proof.py:573-580 | no repeats, the same members, empty iff empty |
| ProofArtifacts.StoredReceiptReadsBack | src/fusekit/hosted/live_checkout_proof.py:501-526 | an accepted receipt, once stored, reads back unchanged through its hash wrapper if its file is at most 1 MiB, and is refused otherwise |
| ProofArtifacts.StoredResponseReadsBack | src/fusekit/hosted/live_checkout_proof.py:529-555 | the same for start responses |
| ProofArtifacts.ReceiptIsVouchedFor | src/fusekit/hosted/live_checkout_proof.py:501-526 | a wrapper yields the receipt it holds iff it has exactly its own members and its job id, schema and hash are those of that receipt; any other file is read as it is |
| ProofArtifacts.ResponseIsVouchedFor | src/fusekit/hosted/live_checkout_proof.py:529-555 | the same for start responses |
| PriceLabel.CodesStandAlone | src/fusekit/hosted/billing.py:679-693 | a currency code counts only where no letter, digit or underscore touches it |
| PriceLabel.CurrencyMatchAtIsExact | src/fusekit/hosted/billing.py:679-693 | the pattern matches at a position iff the scanner finds a match there, and what it finds is what leftmost greedy matching with backtracking yields |
| PriceLabel.DollarMatchAtIsExact | src/fusekit/hosted/billing.py:696-702 | the same for the dollar pattern |
| PriceLabel.Amounts | src/fusekit/hosted/billing.py:705-712 | collects exactly the positive amounts of the tokens and raises iff one is beyond the decimal precision |
| PriceLabel.WorthByDigits | src/fusekit/hosted/billing.py:705-712 | a number is worth a hundred cents for each unit, ten for the first digit after the full stop and one for the second; commas count nothing |
| PriceLabel.PriceLabelMatchesAmount | src/fusekit/hosted/billing.py:652-669 | true iff the dollar-sign rules hold and a token in that currency is worth exactly that many cents |
| PriceLabel.PriceLabelMatchesReceipt | src/fusekit/hosted/billing.py:628-649 | the same for a receipt, whose amount must be a positive whole number and whose currency three lower-case letters |
| PricePrinting.PrintedDollarsNameTheirAmount | src/fusekit/hosted/billing.py:652-712 | an amount printed in dollars matches itself and no other amount |
| PricePrinting.PrintedUsdNamesItsAmount | src/fusekit/hosted/billing.py:652-712 | an amount printed as USD with thousands commas matches itself and no other amount |
| ScriptJsonProofs.ScriptSafe | src/fusekit/hosted/script_json.py:8-18 | the embedded text of any payload holds no less-than sign, greater-than sign or ampersand |
| ScriptJsonProofs.ReadsBackExactly | src/fusekit/hosted/script_json.py:8-18 | it parses, by section 7 of RFC 8259, to exactly the payload iff no string holds a high surrogate directly before a low one |
| ScriptJsonProofs.AdjacentSurrogatesMerge | src/fusekit/hosted/script_json.py:8-18 | such a pair comes back as one character |
| ShellQuote.QuotedIsLiteral | src/fusekit/cli.py:6485-6488 | in any context a quoted value adds exactly its own text to its word and changes nothing in the reading of the rest |
| ShellQuote.QuoteRoundTrips | src/fusekit/cli.py:6485-6488 | quoting any text and splitting gives back that one word |
| ShellQuote.LoginCommandSplits | src/fusekit/cli.py:6285-6289 | the login command splits into the intended words for all paths and providers |
| Extraction.Extract | src/fusekit/source.py:216-260 | refused: nothing changes; else only staging, destination and missing parents do; destination kept until the swap; what a failed swap leaves there, and when it is all gone; with no failing call, success iff members fit; when staging is gone or stays a file |
| Extraction.LayOut | src/fusekit/source.py:241-252 | every member is laid out iff no call fails, all stay inside staging and none needs a directory where another is a file; the tree is then exactly theirs, the last one for a target winning |
| Extraction.PlainArchivesExtract | src/fusekit/source.py:216-260 | an archive without dot segments can be extracted iff no wanted member needs a directory where another is a file |
| Extraction.PlainArchivesArriveWhole | src/fusekit/source.py:216-260 | without dot segments the destination holds exactly the wanted members, root segment stripped, last duplicate winning, and the directories they need |
| Extraction.NothingExcludedArrives | src/fusekit/source.py:263-283 | whatever the archive, no component below the destination is an excluded name |
| Extraction.WantedUnlessKeptOut | src/fusekit/source.py:263-283 | a file is wanted unless a directory or name on its way is never wanted, its name is that of a key or credential store, or it is a data file named after a secret |
| Cleanup.Detonate | src/fusekit/detonation/cleanup.py:13-50 | even when it raises: only targets that are not preserved, and what lies under them, go; with a root nothing outside it, nor the root, changes; success removes them all; the report lists what went |
| Cleanup.StartOver | src/fusekit/rollback.py:210-232 | even when it raises, everything but the restartable state is as it was, vault, audit log and both receipts among it; without failures worker, tmp, job, runner plan, workspace, control room and remote artifacts go |

## Left out

- Launch.Run.Launch: job steps other than detonate.workspace, printing and argument parsing are not modelled; workers of earlier runs are not in `live`; the retrieved artifacts are those of one bundle, and a report that cannot be read counts as a failed collection.
- ArtifactCopy.CopyProof: checks against symbolic links are outcomes of their own; the contents of the refreshed files are parameters that say the step is done.
- ApplyVerification.VerifyApply: the calls that produce results, repairs and fallbacks are not modelled, only the last results and whether a repair or fallback was tried; a health check that raises ends the apply before it.
- Launch.Run.Provision: a failed provisioning either leaks its instance or leaves nothing; partly created networks are not modelled.
- PlaybookGate.PlaybookFailures: rules about wording, safety notes and provider-family coverage are not modelled, because they depend on tables and expressions of other modules.
- Playbook.ProviderPlaybook: instructions and safety notes are arbitrary proper texts.
- ProviderSetup.Setup.RunManifest: synthesizing, writing and loading a pack is one call that may fail; writing strategies, checkpoints, gates and receipts is another; the rounds of the wait are those observed so far.
- GateHistogram.ProviderGatesFailures: timestamps are whole numbers; key tables and the credential detector are parameters.
- Signatures.WakeEventsMatch: reading gate_events.jsonl line by line is not modelled, only the rows it yields; the strategy, playbook and readiness signatures are left out as easier relatives.
- JobStore.Put: the hosted job codec is a parameter that round-trips where a lemma says so; file modes and links are not modelled, and JSON text is ASCII.
- LiveCheckoutProof.BuildProof: the schema labels, hashes and file names that a proof repeats are not modelled, nor is the command line around it.
- ProofArtifacts.StoredReceiptReadsBack: rests on JSON text parsing back to its value, which ScriptJsonProofs proves for the related encoding of script elements.
- PriceLabel.PriceLabelMatchesAmount: letters, digits and case are those of ASCII.
- ScriptJsonProofs.ReadsBackExactly: payloads without floating-point numbers.
- Extraction.Extract: paths are absolute and without symbolic links; download, branch retry and file modes are left out.
- Cleanup.Detonate: paths are resolved and absolute; symbolic links and home-directory expansion are left out.
- Redaction.OnlyFingerprintsAreRevealed: case folding of member names is that of ASCII.
- Branch retry, slug normalization, rollback planning, HTML rendering, browser and terminal handling, RSA signing, key generation, HTTP to providers, and the remaining preflight sections: single-branch facts or foreign calls.
- Wall-clock time, floating-point values in JSON, process interruption between two recorded moments.
