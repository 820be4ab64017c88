/** The provider playbook: the generator in cli.py and the validator in
    detonation/preflight.py, which must accept what the generator builds. */
module Playbook {
  import opened Sorting
  import opened Text

  /** One recorded provider route, with the texts the generator reads from it. */
  datatype Route = Route(
    provider: string, strategy: string, recipe: string, target: string, downstreamOrder: string, apiOwns: string)

  /** The record of one provider run. */
  datatype ProviderRun = ProviderRun(provider: string, strategies: seq<Route>)

  datatype HumanAction = Unstated | Required(b: bool)

  /** A playbook step; an empty text stands for an absent member. */
  datatype Step = Step(
    id: string, instruction: string, control: string, provider: string, route: string,
    actor: string, human: HumanAction, proofSource: string, resumeEvent: string)

  const API := "api"
  const BROWSER := "browser_guided"
  const FOLLOW_ME := "human_follow_me"
  const WORKER := "FuseKit API worker"
  const RESEND_KEY := "RESEND_API_KEY"
  const DNS_CONTROL := "Approve DNS apply"
  const PLAN_CONTROL := "Approve setup plan"
  const FINISHED_CONTROL := "I finished this step"
  const RECEIPT := "setup_receipt.json"
  const GATE_EVENTS := "gate_events.jsonl"
  const RECORDED := "provider_action_recorded"
  const CAPTURED := "clipboard_captured -> resume_requested"
  const DNS_APPROVED := "dns_apply_approved -> resume_requested"
  const PLAN_APPROVED := "setup_plan_approved -> resume_requested"
  const RESUME := "resume_requested"

  /** Providers whose captured value is called their token. */
  const TOKEN_PROVIDERS: set<string> := {"cloudflare", "github", "vercel"}

  predicate IsMachineRoute(route: string) { route == API || route == "official_cli" }
  predicate IsCaptureRoute(route: string) { route == BROWSER || route == "local_vault" }
  predicate IsHumanRoute(route: string) { IsCaptureRoute(route) || route == FOLLOW_ME }

  // ------------------------------------------------------- reading the records

  /** `_iter_provider_strategy_items`. */
  function Flatten(runs: seq<ProviderRun>): (records: seq<Route>)
    ensures forall i :: 0 <= i < |records| ==> records[i].provider == Lower(Strip(records[i].provider))
  {
    if runs == [] then []
    else
      var provider := Lower(Strip(runs[0].provider));
      LowerStripIsStable(runs[0].provider);
      seq(|runs[0].strategies|,
        i requires 0 <= i < |runs[0].strategies| => runs[0].strategies[i].(provider := provider))
      + Flatten(runs[1..])
  }

  /** The route is one of those recorded, under the name of its provider. */
  ghost predicate IsRecorded(r: Route, runs: seq<ProviderRun>) {
    exists i, j :: 0 <= i < |runs| && 0 <= j < |runs[i].strategies|
                   && r == runs[i].strategies[j].(provider := Lower(Strip(runs[i].provider)))
  }

  lemma {:induction false} EveryRecordIsRead(runs: seq<ProviderRun>)
    ensures forall r :: r in Flatten(runs) <==> IsRecorded(r, runs)
  {
    hide Lower, Strip;
    if runs != [] {
      EveryRecordIsRead(runs[1..]);
      FirstRecords(runs);
      forall r ensures r in Flatten(runs) <==> IsRecorded(r, runs) {
        RecordedFirstOrLater(r, runs);
      }
    }
  }

  /** The records of the first run come first. */
  lemma FirstRecords(runs: seq<ProviderRun>)
    requires runs != []
    ensures forall r :: r in Flatten(runs) <==> IsRecorded(r, runs[..1]) || r in Flatten(runs[1..])
  {
    var provider, first := Lower(Strip(runs[0].provider)), runs[..1];
    hide Lower, Strip;
    assert |Flatten(runs)| == |runs[0].strategies| + |Flatten(runs[1..])|;
    forall r | IsRecorded(r, first) ensures r in Flatten(runs) {
      var i, j :| 0 <= i < |first| && 0 <= j < |first[i].strategies|
                  && r == first[i].strategies[j].(provider := Lower(Strip(first[i].provider)));
      assert Flatten(runs)[j] == r;
    }
    forall r | r in Flatten(runs) && r !in Flatten(runs[1..]) ensures IsRecorded(r, first) {
      var k :| 0 <= k < |Flatten(runs)| && Flatten(runs)[k] == r;
      assert k < |first[0].strategies| && r == first[0].strategies[k].(provider := provider);
    }
  }

  lemma RecordedFirstOrLater(r: Route, runs: seq<ProviderRun>)
    requires runs != []
    ensures IsRecorded(r, runs) <==> IsRecorded(r, runs[..1]) || IsRecorded(r, runs[1..])
  {
    hide Lower, Strip;
    var first, rest := runs[..1], runs[1..];
    if IsRecorded(r, rest) {
      var i, j :| 0 <= i < |rest| && 0 <= j < |rest[i].strategies|
                  && r == rest[i].strategies[j].(provider := Lower(Strip(rest[i].provider)));
      assert runs[i + 1] == rest[i];
    }
    if IsRecorded(r, runs) {
      var i, j :| 0 <= i < |runs| && 0 <= j < |runs[i].strategies|
                  && r == runs[i].strategies[j].(provider := Lower(Strip(runs[i].provider)));
      assert if i == 0 then first[0] == runs[0] else rest[i - 1] == runs[i];
    }
  }

  lemma LowerStripIsStable(s: string)
    ensures Lower(Strip(Lower(Strip(s)))) == Lower(Strip(s))
  {
    var t := Lower(Strip(s));
    StripTrimmed(t);
  }

  predicate IsResendDomainApi(r: Route) {
    r.provider == "resend" && Strip(r.recipe) == "resend-domain" && Strip(r.strategy) == API
      && r.downstreamOrder == "before_dns_apply"
  }

  predicate IsResendAudienceApi(r: Route) {
    r.provider == "resend" && Strip(r.recipe) == "resend-audience" && Strip(r.strategy) == API
      && r.apiOwns == "audience"
  }

  predicate IsVercelEnv(r: Route) {
    r.provider == "vercel" && Strip(r.strategy) == API && Contains(Strip(r.recipe), "env")
  }

  predicate IsDns(r: Route) {
    r.provider == "cloudflare" || r.provider == "dns" || Contains(Strip(r.recipe), "dns")
  }

  predicate IsGate(r: Route) {
    Strip(r.strategy) == BROWSER || Strip(r.strategy) == FOLLOW_ME
  }

  predicate IsNonSecretGate(r: Route) { IsGate(r) && Strip(r.target) == "" }

  function TargetOf(r: Route): string { Upper(Strip(r.target)) }

  /** `_human_gate_targets`, before sorting. */
  function GateTargets(records: seq<Route>): set<string> {
    set r | r in records && IsGate(r) && Strip(r.target) != "" :: TargetOf(r)
  }

  /** `_human_gate_target_provider`: the first record that names the target decides. */
  function TargetProvider(target: string, records: seq<Route>): string {
    if records == [] then
      if target == "CLOUDFLARE_API_TOKEN" then "cloudflare"
      else if target == "GITHUB_TOKEN" then "github"
      else if target == "VERCEL_TOKEN" then "vercel"
      else "provider"
    else
      var provider := Lower(Strip(records[0].provider));
      if TargetOf(records[0]) == target && provider != "" && provider != "provider" then provider
      else TargetProvider(target, records[1..])
  }

  // ------------------------------------------------------- generating steps

  /** What a step is for. */
  datatype Kind =
    | ResendKey
    | Captured(target: string, provider: string)
    | DomainApi
    | AudienceApi
    | EnvApi
    | DnsApproval
    | FinishedStep
    | Routes

  function IdOf(k: Kind): string {
    match k
    case ResendKey => "resend.capture_key"
    case Captured(target, provider) =>
      if provider in TOKEN_PROVIDERS then provider + ".capture_token" else "capture." + Lower(target)
    case DomainApi => "resend.domain_api"
    case AudienceApi => "resend.audience_api"
    case EnvApi => "vercel.env_api"
    case DnsApproval => "dns.approval"
    case FinishedStep => "provider.finished_step"
    case Routes => "provider.routes"
  }

  function CaptureControl(target: string): string { "Capture " + target + " from VM clipboard" }

  /** `_playbook_step`, with the wording of the instruction left out. */
  function MakeStep(id: string, instruction: string, control: string, provider: string, route: string): Step {
    Step(id, instruction, control, provider, route, Actor(route),
         if Actor(route) == "" then Unstated else Required(Actor(route) == "You"),
         ProofSource(route), ResumeEvent(route, control))
  }

  function Actor(route: string): string {
    if IsMachineRoute(Strip(route)) then "FuseKit" else if IsHumanRoute(Strip(route)) then "You" else ""
  }

  function ProofSource(route: string): string {
    if IsMachineRoute(Strip(route)) then RECEIPT else if IsHumanRoute(Strip(route)) then GATE_EVENTS else ""
  }

  function ResumeEvent(route: string, control: string): string {
    if IsMachineRoute(Strip(route)) then RECORDED
    else if IsCaptureRoute(Strip(route)) then CAPTURED
    else if Strip(route) == FOLLOW_ME then
      if Strip(control) == DNS_CONTROL then DNS_APPROVED
      else if Strip(control) == PLAN_CONTROL then PLAN_APPROVED
      else RESUME
    else ""
  }

  /** The instruction shown for a step; its wording is not modelled. */
  type Wording = Kind -> string

  function StepOf(k: Kind, wording: Wording): Step {
    match k
    case ResendKey => MakeStep(IdOf(k), wording(k), CaptureControl(RESEND_KEY), "resend", BROWSER)
    case Captured(target, provider) => MakeStep(IdOf(k), wording(k), CaptureControl(target), provider, BROWSER)
    case DomainApi => MakeStep(IdOf(k), wording(k), WORKER, "resend", API)
    case AudienceApi => MakeStep(IdOf(k), wording(k), WORKER, "resend", API)
    case EnvApi => MakeStep(IdOf(k), wording(k), WORKER, "vercel", API)
    case DnsApproval => MakeStep(IdOf(k), wording(k), DNS_CONTROL, "dns", FOLLOW_ME)
    case FinishedStep => MakeStep(IdOf(k), wording(k), FINISHED_CONTROL, "provider", FOLLOW_ME)
    case Routes => MakeStep(IdOf(k), wording(k), WORKER, "provider", API)
  }

  predicate HasDomainApi(records: seq<Route>) { exists r | r in records :: IsResendDomainApi(r) }
  predicate HasAudienceApi(records: seq<Route>) { exists r | r in records :: IsResendAudienceApi(r) }
  predicate HasVercelEnv(records: seq<Route>) { exists r | r in records :: IsVercelEnv(r) }
  predicate HasDns(records: seq<Route>) { exists r | r in records :: IsDns(r) }
  predicate HasNonSecretGate(records: seq<Route>) { exists r | r in records :: IsNonSecretGate(r) }

  /** The targets that get a step of their own. */
  predicate OwnStep(target: string, records: seq<Route>) {
    !(target == RESEND_KEY && HasDomainApi(records))
  }

  function CaptureKinds(targets: seq<string>, records: seq<Route>): seq<Kind> {
    if targets == [] then []
    else
      If(OwnStep(targets[0], records), Captured(targets[0], TargetProvider(targets[0], records)))
      + CaptureKinds(targets[1..], records)
  }

  function If(b: bool, k: Kind): seq<Kind> { if b then [k] else [] }

  function FixedKinds(records: seq<Route>): seq<Kind> {
    If(HasDomainApi(records), DomainApi)
    + If(HasAudienceApi(records), AudienceApi)
    + If(HasVercelEnv(records), EnvApi)
    + If(HasDns(records), DnsApproval)
    + If(HasNonSecretGate(records), FinishedStep)
  }

  /** The steps of the playbook, in order. */
  function PlaybookKinds(records: seq<Route>, targets: seq<string>): seq<Kind> {
    var steps := If(HasDomainApi(records), ResendKey) + CaptureKinds(targets, records) + FixedKinds(records);
    if steps == [] && records != [] then [Routes] else steps
  }

  function StepsOf(kinds: seq<Kind>, wording: Wording): (steps: seq<Step>)
    ensures |steps| == |kinds|
    ensures forall i :: 0 <= i < |kinds| ==> steps[i] == StepOf(kinds[i], wording)
  {
    seq(|kinds|, i requires 0 <= i < |kinds| => StepOf(kinds[i], wording))
  }

  // ------------------------------------------------------- the playbook, told plainly

  // What follows speaks of records and steps alone.

  ghost predicate HasStep(steps: seq<Step>, id: string) { exists i :: 0 <= i < |steps| && steps[i].id == id }

  ghost predicate DomainByApi(records: seq<Route>) {
    exists r :: r in records && r.provider == "resend" && Strip(r.recipe) == "resend-domain"
                && Strip(r.strategy) == "api" && r.downstreamOrder == "before_dns_apply"
  }

  ghost predicate AudienceByApi(records: seq<Route>) {
    exists r :: r in records && r.provider == "resend" && Strip(r.recipe) == "resend-audience"
                && Strip(r.strategy) == "api" && r.apiOwns == "audience"
  }

  ghost predicate VariablesByApi(records: seq<Route>) {
    exists r :: r in records && r.provider == "vercel" && Strip(r.strategy) == "api" && Contains(Strip(r.recipe), "env")
  }

  ghost predicate TouchesDns(records: seq<Route>) {
    exists r :: r in records && (r.provider == "cloudflare" || r.provider == "dns" || Contains(Strip(r.recipe), "dns"))
  }

  predicate IsByHand(r: Route) { Strip(r.strategy) == "browser_guided" || Strip(r.strategy) == "human_follow_me" }

  ghost predicate AsksWithoutTarget(records: seq<Route>) {
    exists r :: r in records && IsByHand(r) && Strip(r.target) == ""
  }

  /** Some record asks the user for this value. */
  ghost predicate AsksFor(target: string, records: seq<Route>) {
    exists r :: r in records && IsByHand(r) && Strip(r.target) != "" && Upper(Strip(r.target)) == target
  }

  /** The step takes this value from the clipboard. */
  predicate Captures(s: Step, target: string) { s.control == "Capture " + target + " from VM clipboard" }

  predicate NamesTarget(r: Route, target: string) {
    Upper(Strip(r.target)) == target && Lower(Strip(r.provider)) != "" && Lower(Strip(r.provider)) != "provider"
  }

  /** The provider of a value: that of the first record that names one, else the one known by
      the value's name. */
  ghost predicate BelongsTo(target: string, records: seq<Route>, provider: string) {
    || (exists i :: 0 <= i < |records| && NamesTarget(records[i], target)
                    && provider == Lower(Strip(records[i].provider))
                    && forall j :: 0 <= j < i ==> !NamesTarget(records[j], target))
    || (&& (forall i :: 0 <= i < |records| ==> !NamesTarget(records[i], target))
        && provider == match target
                       case "CLOUDFLARE_API_TOKEN" => "cloudflare"
                       case "GITHUB_TOKEN" => "github"
                       case "VERCEL_TOKEN" => "vercel"
                       case _ => "provider")
  }

  predicate ByFuseKit(s: Step, provider: string) {
    && s.provider == provider && s.route == "api" && s.control == "FuseKit API worker"
    && s.actor == "FuseKit" && s.human == Required(false)
    && s.proofSource == "setup_receipt.json" && s.resumeEvent == "provider_action_recorded"
  }

  predicate ByUser(s: Step, provider: string, route: string, control: string, resumeEvent: string) {
    && s.provider == provider && s.route == route && s.control == control
    && s.actor == "You" && s.human == Required(true)
    && s.proofSource == "gate_events.jsonl" && s.resumeEvent == resumeEvent
  }

  predicate ByCapture(s: Step, provider: string, target: string) {
    ByUser(s, provider, "browser_guided", "Capture " + target + " from VM clipboard",
           "clipboard_captured -> resume_requested")
  }

  /** What the step with this id carries; an id that is not fixed belongs to a captured value. */
  ghost predicate Carries(s: Step, records: seq<Route>) {
    match s.id
    case "resend.capture_key" => ByCapture(s, "resend", "RESEND_API_KEY")
    case "resend.domain_api" => ByFuseKit(s, "resend")
    case "resend.audience_api" => ByFuseKit(s, "resend")
    case "vercel.env_api" => ByFuseKit(s, "vercel")
    case "dns.approval" =>
      ByUser(s, "dns", "human_follow_me", "Approve DNS apply", "dns_apply_approved -> resume_requested")
    case "provider.finished_step" =>
      ByUser(s, "provider", "human_follow_me", "I finished this step", "resume_requested")
    case "provider.routes" => ByFuseKit(s, "provider")
    case _ => exists target :: CarriesCapture(s, target, records)
  }

  ghost predicate CarriesCapture(s: Step, target: string, records: seq<Route>) {
    && AsksFor(target, records) && ByCapture(s, s.provider, target) && BelongsTo(target, records, s.provider)
    && s.id == if s.provider == "cloudflare" || s.provider == "github" || s.provider == "vercel"
               then s.provider + ".capture_token" else "capture." + Lower(target)
  }

  /** Which steps there are, in which order, and what each carries. */
  ghost predicate AsRecorded(steps: seq<Step>, records: seq<Route>) {
    && CalledFor(steps, records) && CapturesEach(steps, records) && InPlaces(steps)
    && forall i :: 0 <= i < |steps| ==> Carries(steps[i], records)
  }

  function IdPlace(id: string): int {
    match id
    case "resend.capture_key" => 1
    case "resend.domain_api" => 3
    case "resend.audience_api" => 4
    case "vercel.env_api" => 5
    case "dns.approval" => 6
    case "provider.finished_step" => 7
    case "provider.routes" => 8
    case _ => 2
  }

  /** The steps stand in a fixed order, the captures among them by the names of their values. */
  ghost predicate InPlaces(steps: seq<Step>) {
    forall i, j :: 0 <= i < j < |steps| ==>
      || IdPlace(steps[i].id) < IdPlace(steps[j].id)
      || exists t, u :: Captures(steps[i], t) && Captures(steps[j], u) && StringLe(t, u)
  }

  /** A step with a fixed id is there exactly when some record calls for it; the last resort when
      none calls for anything. */
  ghost predicate CalledFor(steps: seq<Step>, records: seq<Route>) {
    && (HasStep(steps, "resend.capture_key") <==> DomainByApi(records))
    && (HasStep(steps, "resend.domain_api") <==> DomainByApi(records))
    && (HasStep(steps, "resend.audience_api") <==> AudienceByApi(records))
    && (HasStep(steps, "vercel.env_api") <==> VariablesByApi(records))
    && (HasStep(steps, "dns.approval") <==> TouchesDns(records))
    && (HasStep(steps, "provider.finished_step") <==> AsksWithoutTarget(records))
    && (HasStep(steps, "provider.routes") <==>
          && records != [] && !DomainByApi(records) && !AudienceByApi(records) && !VariablesByApi(records)
          && !TouchesDns(records) && !AsksWithoutTarget(records) && forall t :: !AsksFor(t, records))
  }

  /** Exactly the values asked for are captured, each by one step. */
  ghost predicate CapturesEach(steps: seq<Step>, records: seq<Route>) {
    && CapturedOnce(steps)
    && forall t :: IsCaptured(steps, t) <==>
         AsksFor(t, records) || (t == "RESEND_API_KEY" && DomainByApi(records))
  }

  ghost predicate IsCaptured(steps: seq<Step>, target: string) {
    exists i :: 0 <= i < |steps| && Captures(steps[i], target)
  }

  ghost predicate CapturedOnce(steps: seq<Step>) {
    forall t, i, j :: 0 <= i < |steps| && 0 <= j < |steps| && Captures(steps[i], t) && Captures(steps[j], t) ==> i == j
  }

  // ------------------------------------------------------- which kinds there are

  lemma FixedIdsDiffer(a: Kind, b: Kind)
    requires !a.Captured? && !b.Captured? && IdOf(a) == IdOf(b)
    ensures a == b
  {
    assert IdOf(ResendKey)[7] == 'c' && IdOf(DomainApi)[7] == 'd' && IdOf(AudienceApi)[7] == 'a';
    assert IdOf(EnvApi)[0] == 'v' && IdOf(DnsApproval)[0] == 'd';
    assert IdOf(FinishedStep)[0] == 'p' && IdOf(FinishedStep)[9] == 'f';
    assert IdOf(Routes)[0] == 'p' && IdOf(Routes)[9] == 'r';
    assert IdOf(ResendKey)[0] == 'r' && IdOf(DomainApi)[0] == 'r' && IdOf(AudienceApi)[0] == 'r';
  }

  lemma CapturedIdIsNotFixed(a: Kind, b: Kind)
    requires a.Captured? && !b.Captured?
    ensures IdOf(a) != IdOf(b)
  {
    var id := IdOf(a);
    if a.provider in TOKEN_PROVIDERS {
      assert id[0] == a.provider[0] && id[1] == a.provider[1];
      assert a.provider == "vercel" ==> id[7] == 'c' && IdOf(EnvApi)[7] == 'e';
    } else {
      assert id[0] == 'c' && id[1] == 'a';
    }
    assert IdOf(b)[0] in {'r', 'v', 'd', 'p'};
    assert IdOf(b)[0] == 'v' ==> b == EnvApi;
  }

  lemma {:induction false} CapturesOf(targets: seq<string>, records: seq<Route>)
    ensures forall k :: k in CaptureKinds(targets, records) <==>
      k.Captured? && k.target in targets && OwnStep(k.target, records)
      && k.provider == TargetProvider(k.target, records)
    ensures Distinct(targets) ==> Distinct(CaptureKinds(targets, records))
  {
    hide TargetProvider, OwnStep;
    if targets != [] {
      CapturesOf(targets[1..], records);
      assert targets == [targets[0]] + targets[1..];
    }
  }

  ghost predicate IsKind(k: Kind, records: seq<Route>, targets: seq<string>) {
    match k
    case ResendKey => HasDomainApi(records)
    case Captured(t, p) => t in targets && OwnStep(t, records) && p == TargetProvider(t, records)
    case DomainApi => HasDomainApi(records)
    case AudienceApi => HasAudienceApi(records)
    case EnvApi => HasVercelEnv(records)
    case DnsApproval => HasDns(records)
    case FinishedStep => HasNonSecretGate(records)
    case Routes =>
      && records != [] && !HasDomainApi(records) && !HasAudienceApi(records) && !HasVercelEnv(records)
      && !HasDns(records) && !HasNonSecretGate(records) && forall t :: t in targets ==> !OwnStep(t, records)
  }

  lemma KindsOf(records: seq<Route>, targets: seq<string>)
    requires Distinct(targets)
    ensures forall k :: k in PlaybookKinds(records, targets) <==> IsKind(k, records, targets)
    ensures Distinct(PlaybookKinds(records, targets))
  {
    CapturesOf(targets, records);
    hide HasDomainApi, HasAudienceApi, HasVercelEnv, HasDns, HasNonSecretGate, OwnStep, TargetProvider, CaptureKinds;
    FixedKindsOf(records);
    hide FixedKinds;
    var captures := CaptureKinds(targets, records);
    var all := If(HasDomainApi(records), ResendKey) + captures + FixedKinds(records);
    var head := If(HasDomainApi(records), ResendKey);
    DistinctJoin(head, captures);
    DistinctJoin(head + captures, FixedKinds(records));
    assert forall k :: k in all <==> k in head || k in captures || k in FixedKinds(records);
    hide If, Distinct;
    assert forall k :: k in head <==> k.ResendKey? && HasDomainApi(records) by {
      IfHolds(HasDomainApi(records), ResendKey);
    }
    NoKinds(all, records, targets);
  }

  lemma IfHolds(b: bool, k: Kind)
    ensures Ascends(If(b, k))
    ensures forall x :: x in If(b, k) <==> b && x == k
  {
  }

  lemma DistinctJoin(a: seq<Kind>, b: seq<Kind>)
    requires Distinct(a) && Distinct(b) && forall k :: k in a ==> k !in b
    ensures Distinct(a + b)
  {
    var s := a + b;
    forall i, j | 0 <= i < j < |s| ensures s[i] != s[j] {
      if i < |a| <= j {
        assert s[i] in a && s[j] in b;
      }
    }
  }

  /** There is nothing else exactly when nothing calls for a step. */
  lemma NoKinds(all: seq<Kind>, records: seq<Route>, targets: seq<string>)
    requires forall k :: k in all <==> !k.Routes? && IsKind(k, records, targets)
    ensures all == [] && records != [] <==> IsKind(Routes, records, targets)
  {
    hide HasDomainApi, HasAudienceApi, HasVercelEnv, HasDns, HasNonSecretGate, OwnStep, TargetProvider;
    if all == [] {
      assert DomainApi !in all && AudienceApi !in all && EnvApi !in all && DnsApproval !in all
          && FinishedStep !in all;
      forall t | t in targets ensures !OwnStep(t, records) {
        assert Captured(t, TargetProvider(t, records)) !in all;
      }
    } else {
      var k := all[0];
      assert k in all;
    }
  }

  lemma FixedKindsOf(records: seq<Route>)
    ensures forall k :: k in FixedKinds(records) <==>
      || (k.DomainApi? && HasDomainApi(records)) || (k.AudienceApi? && HasAudienceApi(records))
      || (k.EnvApi? && HasVercelEnv(records)) || (k.DnsApproval? && HasDns(records))
      || (k.FinishedStep? && HasNonSecretGate(records))
    ensures Distinct(FixedKinds(records))
  {
    hide HasDomainApi, HasAudienceApi, HasVercelEnv, HasDns, HasNonSecretGate;
  }

  function Place(k: Kind): int {
    match k
    case ResendKey => 1
    case Captured(_, _) => 2
    case DomainApi => 3
    case AudienceApi => 4
    case EnvApi => 5
    case DnsApproval => 6
    case FinishedStep => 7
    case Routes => 8
  }

  predicate Precedes(a: Kind, b: Kind) {
    Place(a) < Place(b) || (a.Captured? && b.Captured? && StringLe(a.target, b.target))
  }

  ghost predicate Ascends(kinds: seq<Kind>) { forall i, j :: 0 <= i < j < |kinds| ==> Precedes(kinds[i], kinds[j]) }

  lemma AscendJoin(a: seq<Kind>, b: seq<Kind>)
    requires Ascends(a) && Ascends(b) && forall x, y :: x in a && y in b ==> Place(x) < Place(y)
    ensures Ascends(a + b)
  {
    hide Place, StringLe;
    var s := a + b;
    forall i, j | 0 <= i < j < |s| ensures Precedes(s[i], s[j]) {
      if i < |a| <= j {
        assert s[i] in a && s[j] in b;
      }
    }
  }

  lemma {:induction false} CapturesAscend(targets: seq<string>, records: seq<Route>)
    requires Ordered(targets, StringLe)
    ensures Ascends(CaptureKinds(targets, records))
    ensures forall k :: k in CaptureKinds(targets, records) ==> k.Captured? && k.target in targets
  {
    hide TargetProvider, OwnStep, StringLe;
    if targets != [] {
      CapturesAscend(targets[1..], records);
      assert targets == [targets[0]] + targets[1..];
      var kinds, rest := CaptureKinds(targets, records), CaptureKinds(targets[1..], records);
      forall i, j | 0 <= i < j < |kinds| ensures Precedes(kinds[i], kinds[j]) {
        if |kinds| > |rest| && i == 0 {
          assert kinds[j] == rest[j - 1] && rest[j - 1] in rest;
          var m :| 0 <= m < |targets[1..]| && targets[1..][m] == kinds[j].target;
          assert StringLe(targets[0], targets[m + 1]);
        }
      }
    }
  }

  lemma FixedAscend(records: seq<Route>)
    ensures Ascends(FixedKinds(records)) && forall k :: k in FixedKinds(records) ==> Place(k) > 2
  {
    var a := If(HasDomainApi(records), DomainApi);
    var b := If(HasAudienceApi(records), AudienceApi);
    var c := If(HasVercelEnv(records), EnvApi);
    var d := If(HasDns(records), DnsApproval);
    var e := If(HasNonSecretGate(records), FinishedStep);
    IfHolds(HasDomainApi(records), DomainApi);
    IfHolds(HasAudienceApi(records), AudienceApi);
    IfHolds(HasVercelEnv(records), EnvApi);
    IfHolds(HasDns(records), DnsApproval);
    IfHolds(HasNonSecretGate(records), FinishedStep);
    hide HasDomainApi, HasAudienceApi, HasVercelEnv, HasDns, HasNonSecretGate, StringLe, Ascends, If;
    AscendJoin(a, b);
    AscendJoin(a + b, c);
    AscendJoin(a + b + c, d);
    AscendJoin(a + b + c + d, e);
  }

  lemma KindsAscend(records: seq<Route>, targets: seq<string>)
    requires Ordered(targets, StringLe)
    ensures Ascends(PlaybookKinds(records, targets))
  {
    CapturesAscend(targets, records);
    FixedAscend(records);
    hide CaptureKinds, FixedKinds, HasDomainApi, StringLe;
    var head := If(HasDomainApi(records), ResendKey);
    AscendJoin(head, CaptureKinds(targets, records));
    AscendJoin(head + CaptureKinds(targets, records), FixedKinds(records));
  }

  lemma StepsAreInPlaces(kinds: seq<Kind>, wording: Wording)
    requires Ascends(kinds)
    ensures InPlaces(StepsOf(kinds, wording))
  {
    var steps := StepsOf(kinds, wording);
    forall i | 0 <= i < |steps| ensures IdPlace(steps[i].id) == Place(kinds[i]) {
      PlaceOfId(kinds[i]);
      IdOfStep(kinds[i], wording);
    }
    hide StepOf, Captures, StringLe, Place, IdPlace;
    forall i, j | 0 <= i < j < |steps|
      ensures || IdPlace(steps[i].id) < IdPlace(steps[j].id)
              || exists t, u :: Captures(steps[i], t) && Captures(steps[j], u) && StringLe(t, u)
    {
      assert Precedes(kinds[i], kinds[j]);
      if kinds[i].Captured? && kinds[j].Captured? {
        ControlsThatCapture(kinds[i], wording, kinds[i].target);
        ControlsThatCapture(kinds[j], wording, kinds[j].target);
      }
    }
  }

  lemma PlaceOfId(k: Kind)
    ensures IdPlace(IdOf(k)) == Place(k)
  {
    if k.Captured? {
      NotAFixedId(k);
      hide IdOf;
    } else {
      IdsSpelled();
      hide IdOf;
    }
  }

  // ------------------------------------------------------- and what each becomes

  lemma RulesAgree(records: seq<Route>)
    ensures HasDomainApi(records) <==> DomainByApi(records)
    ensures HasAudienceApi(records) <==> AudienceByApi(records)
    ensures HasVercelEnv(records) <==> VariablesByApi(records)
    ensures HasDns(records) <==> TouchesDns(records)
    ensures HasNonSecretGate(records) <==> AsksWithoutTarget(records)
    ensures forall t :: t in GateTargets(records) <==> AsksFor(t, records)
  {
    hide Strip, Contains;
  }

  lemma {:induction false} ProviderOfTarget(target: string, records: seq<Route>)
    ensures BelongsTo(target, records, TargetProvider(target, records))
  {
    hide Strip, Lower, Upper;
    if records != [] && !NamesTarget(records[0], target) {
      var rest := records[1..];
      ProviderOfTarget(target, rest);
      if i :| 0 <= i < |rest| && NamesTarget(rest[i], target)
              && TargetProvider(target, rest) == Lower(Strip(rest[i].provider))
              && forall j :: 0 <= j < i ==> !NamesTarget(rest[j], target) {
        assert NamesTarget(records[i + 1], target);
        forall j | 0 <= j < i + 1 ensures !NamesTarget(records[j], target) {
          assert j > 0 ==> records[j] == rest[j - 1];
        }
      } else {
        forall i | 0 <= i < |records| ensures !NamesTarget(records[i], target) {
          assert i > 0 ==> records[i] == rest[i - 1];
        }
      }
    }
  }

  lemma ControlsThatCapture(k: Kind, wording: Wording, t: string)
    ensures Captures(StepOf(k, wording), t) <==>
            (k.Captured? && k.target == t) || (k.ResendKey? && t == "RESEND_API_KEY")
  {
    var c := "Capture " + t + " from VM clipboard";
    assert c[0] == 'C' && c[8..|c| - 18] == t;
    hide IdOf;
    var s := StepOf(k, wording);
    if k.Captured? {
      assert s.control == "Capture " + k.target + " from VM clipboard";
      assert s.control[8..|s.control| - 18] == k.target;
    } else if k.ResendKey? {
      assert s.control == "Capture " + RESEND_KEY + " from VM clipboard";
      assert s.control[8..|s.control| - 18] == RESEND_KEY;
    } else {
      assert s.control[0] != 'C';
    }
  }

  lemma RoutesStripped()
    ensures Strip(API) == API && Strip(BROWSER) == BROWSER && Strip(FOLLOW_ME) == FOLLOW_ME
    ensures Strip(DNS_CONTROL) == DNS_CONTROL && Strip(FINISHED_CONTROL) == FINISHED_CONTROL
  {
    hide Strip;
    StripTrimmed(API);
    StripTrimmed(BROWSER);
    StripTrimmed(FOLLOW_ME);
    StripTrimmed(DNS_CONTROL);
    StripTrimmed(FINISHED_CONTROL);
  }

  lemma FixedStepCarries(k: Kind, wording: Wording, records: seq<Route>)
    requires !k.Captured?
    ensures Carries(StepOf(k, wording), records)
  {
    RoutesStripped();
    ControlsDiffer();
    hide Strip, CarriesCapture;
  }

  lemma ControlsDiffer()
    ensures FINISHED_CONTROL != DNS_CONTROL && FINISHED_CONTROL != PLAN_CONTROL && DNS_CONTROL != PLAN_CONTROL
  {
    assert FINISHED_CONTROL[0] == 'I' && DNS_CONTROL[0] == 'A' && PLAN_CONTROL[0] == 'A';
    assert DNS_CONTROL[8] == 'D' && PLAN_CONTROL[8] == 's';
  }

  lemma CaptureStepCarries(k: Kind, wording: Wording, records: seq<Route>)
    requires k.Captured? && AsksFor(k.target, records) && k.provider == TargetProvider(k.target, records)
    ensures Carries(StepOf(k, wording), records)
  {
    hide StepOf, IdOf, ByCapture, AsksFor, BelongsTo, Lower, TargetProvider;
    ProviderOfTarget(k.target, records);
    var s := StepOf(k, wording);
    CaptureIsByUser(k, wording);
    IdOfCapture(k);
    NotAFixedId(k);
    assert CarriesCapture(s, k.target, records);
    hide CarriesCapture;
    NoFixedIdCarries(s, k.target, records);
  }

  lemma NoFixedIdCarries(s: Step, target: string, records: seq<Route>)
    requires CarriesCapture(s, target, records)
    requires s.id !in {"resend.capture_key", "resend.domain_api", "resend.audience_api", "vercel.env_api",
                       "dns.approval", "provider.finished_step", "provider.routes"}
    ensures Carries(s, records)
  {
    hide CarriesCapture, ByFuseKit, ByCapture, ByUser;
  }

  lemma IdOfCapture(k: Kind)
    requires k.Captured?
    ensures IdOf(k) == if k.provider == "cloudflare" || k.provider == "github" || k.provider == "vercel"
                       then k.provider + ".capture_token" else "capture." + Lower(k.target)
  {
    hide Lower;
  }

  lemma CaptureIsByUser(k: Kind, wording: Wording)
    requires k.Captured?
    ensures ByCapture(StepOf(k, wording), k.provider, k.target) && StepOf(k, wording).provider == k.provider
    ensures StepOf(k, wording).id == IdOf(k)
  {
    RoutesStripped();
    hide Strip, IdOf;
  }

  lemma NotAFixedId(k: Kind)
    requires k.Captured?
    ensures IdOf(k) !in {"resend.capture_key", "resend.domain_api", "resend.audience_api", "vercel.env_api",
                         "dns.approval", "provider.finished_step", "provider.routes"}
  {
    var fixed := [ResendKey, DomainApi, AudienceApi, EnvApi, DnsApproval, FinishedStep, Routes];
    forall f | f in fixed ensures IdOf(k) != IdOf(f) {
      CapturedIdIsNotFixed(k, f);
    }
    assert fixed[0] in fixed && fixed[1] in fixed && fixed[2] in fixed && fixed[3] in fixed && fixed[4] in fixed
        && fixed[5] in fixed && fixed[6] in fixed;
    IdsSpelled();
    hide IdOf;
  }

  lemma IdsSpelled()
    ensures IdOf(ResendKey) == "resend.capture_key" && IdOf(DomainApi) == "resend.domain_api"
    ensures IdOf(AudienceApi) == "resend.audience_api" && IdOf(EnvApi) == "vercel.env_api"
    ensures IdOf(DnsApproval) == "dns.approval" && IdOf(FinishedStep) == "provider.finished_step"
    ensures IdOf(Routes) == "provider.routes"
  {
  }

  lemma FixedSteps(kinds: seq<Kind>, wording: Wording, f: Kind)
    requires !f.Captured?
    ensures HasStep(StepsOf(kinds, wording), IdOf(f)) <==> f in kinds
  {
    var steps := StepsOf(kinds, wording);
    hide IdOf, MakeStep;
    forall i | 0 <= i < |kinds| ensures steps[i].id == IdOf(f) <==> kinds[i] == f {
      IdOfStep(kinds[i], wording);
      if kinds[i].Captured? {
        CapturedIdIsNotFixed(kinds[i], f);
      } else if IdOf(kinds[i]) == IdOf(f) {
        FixedIdsDiffer(kinds[i], f);
      }
    }
  }

  lemma IdOfStep(k: Kind, wording: Wording)
    ensures StepOf(k, wording).id == IdOf(k)
  {
  }

  lemma CapturesInSteps(kinds: seq<Kind>, records: seq<Route>, targets: seq<string>, wording: Wording)
    requires Distinct(kinds) && forall k :: k in kinds <==> IsKind(k, records, targets)
    ensures var steps := StepsOf(kinds, wording);
            && CapturedOnce(steps)
            && forall t :: IsCaptured(steps, t) <==>
                 (t in targets && OwnStep(t, records)) || (t == "RESEND_API_KEY" && HasDomainApi(records))
  {
    hide HasDomainApi, HasAudienceApi, HasVercelEnv, HasDns, HasNonSecretGate, TargetProvider, StepOf, Captures;
    var steps := StepsOf(kinds, wording);
    forall t, i | 0 <= i < |steps|
      ensures Captures(steps[i], t) <==>
              (kinds[i].Captured? && kinds[i].target == t) || (kinds[i].ResendKey? && t == "RESEND_API_KEY")
      ensures IsKind(kinds[i], records, targets)
    {
      ControlsThatCapture(kinds[i], wording, t);
      assert kinds[i] in kinds;
    }
    forall t | t in targets && OwnStep(t, records) ensures IsCaptured(steps, t) {
      var k := Captured(t, TargetProvider(t, records));
      assert IsKind(k, records, targets);
      var i :| 0 <= i < |kinds| && kinds[i] == k;
      assert Captures(steps[i], t);
    }
    if HasDomainApi(records) {
      assert IsKind(ResendKey, records, targets);
      var i :| 0 <= i < |kinds| && kinds[i] == ResendKey;
      assert Captures(steps[i], "RESEND_API_KEY");
    }
  }

  /** The steps of the playbook are exactly those the records call for. */
  lemma StepsAreAsRecorded(records: seq<Route>, targets: seq<string>, wording: Wording)
    requires Lists(GateTargets(records), targets) && Ordered(targets, StringLe)
    ensures AsRecorded(StepsOf(PlaybookKinds(records, targets), wording), records)
  {
    var kinds := PlaybookKinds(records, targets);
    KindsOf(records, targets);
    KindsAscend(records, targets);
    hide PlaybookKinds, GateTargets, IsKind, CalledFor, CapturesEach, InPlaces, Carries, StepsOf, Ascends, StringLe;
    StepsAreInPlaces(kinds, wording);
    StepsAreCalledFor(kinds, records, targets, wording);
    ValuesAreCaptured(kinds, records, targets, wording);
    StepsCarry(kinds, records, targets, wording);
  }

  lemma ValuesAreCaptured(kinds: seq<Kind>, records: seq<Route>, targets: seq<string>, wording: Wording)
    requires Distinct(kinds) && forall k :: k in kinds <==> IsKind(k, records, targets)
    requires forall t :: t in targets <==> t in GateTargets(records)
    ensures CapturesEach(StepsOf(kinds, wording), records)
  {
    RulesAgree(records);
    CapturesInSteps(kinds, records, targets, wording);
    hide StepsOf, IsCaptured, CapturedOnce, AsksFor, DomainByApi, HasDomainApi, GateTargets, IsKind;
    var steps := StepsOf(kinds, wording);
    forall t
      ensures IsCaptured(steps, t) <==> AsksFor(t, records) || (t == "RESEND_API_KEY" && DomainByApi(records))
    {
      assert t in targets <==> AsksFor(t, records);
      assert OwnStep(t, records) <==> !(t == "RESEND_API_KEY" && DomainByApi(records));
    }
  }

  lemma StepsCarry(kinds: seq<Kind>, records: seq<Route>, targets: seq<string>, wording: Wording)
    requires forall k :: k in kinds <==> IsKind(k, records, targets)
    requires forall t :: t in targets <==> t in GateTargets(records)
    ensures forall i :: 0 <= i < |kinds| ==> Carries(StepsOf(kinds, wording)[i], records)
  {
    RulesAgree(records);
    hide GateTargets, HasDomainApi, HasAudienceApi, HasVercelEnv, HasDns, HasNonSecretGate, TargetProvider, AsksFor,
      Carries, StepOf;
    forall i | 0 <= i < |kinds| ensures Carries(StepsOf(kinds, wording)[i], records) {
      assert kinds[i] in kinds;
      if kinds[i].Captured? {
        CaptureStepCarries(kinds[i], wording, records);
      } else {
        FixedStepCarries(kinds[i], wording, records);
      }
    }
  }

  lemma StepsAreCalledFor(kinds: seq<Kind>, records: seq<Route>, targets: seq<string>, wording: Wording)
    requires forall k :: k in kinds <==> IsKind(k, records, targets)
    requires forall t :: t in targets <==> t in GateTargets(records)
    ensures CalledFor(StepsOf(kinds, wording), records)
  {
    RulesAgree(records);
    IdsSpelled();
    hide GateTargets, HasDomainApi, HasAudienceApi, HasVercelEnv, HasDns, HasNonSecretGate, TargetProvider, IdOf,
      DomainByApi, AudienceByApi, VariablesByApi, TouchesDns, AsksWithoutTarget, AsksFor, HasStep, StepsOf;
    FixedSteps(kinds, wording, ResendKey);
    FixedSteps(kinds, wording, DomainApi);
    FixedSteps(kinds, wording, AudienceApi);
    FixedSteps(kinds, wording, EnvApi);
    FixedSteps(kinds, wording, DnsApproval);
    FixedSteps(kinds, wording, FinishedStep);
    FixedSteps(kinds, wording, Routes);
    assert IsKind(Routes, records, targets) <==>
        && records != [] && !DomainByApi(records) && !AudienceByApi(records) && !VariablesByApi(records)
        && !TouchesDns(records) && !AsksWithoutTarget(records) && forall t :: !AsksFor(t, records);
  }

  /** The sorted list of gate targets. */
  method SortedGateTargets(records: seq<Route>) returns (targets: seq<string>)
    ensures targets == SortedTexts(GateTargets(records))
  {
    var found: seq<string> := [];
    for n := 0 to |records|
      invariant Lists(GateTargets(records[..n]), found)
    {
      assert records[..n + 1] == records[..n] + [records[n]];
      var target := TargetOf(records[n]);
      if IsGate(records[n]) && Strip(records[n].target) != "" && target !in found {
        found := found + [target];
      }
    }
    assert records[..|records|] == records;
    targets := Sort(found, StringLe);
    StringOrder();
    SortPermutes(found, StringLe);
    SortIsOrdered(found, StringLe);
    SamePermutationLists(GateTargets(records), found, targets);
    SortedListingIsUnique(GateTargets(records), targets);
  }

  /** `_provider_playbook`. */
  method ProviderPlaybook(runs: seq<ProviderRun>, wording: Wording) returns (steps: seq<Step>)
    ensures steps == StepsOf(PlaybookKinds(Flatten(runs), SortedTexts(GateTargets(Flatten(runs)))), wording)
    // told plainly: which steps there are, what each carries, and that every record is read
    ensures AsRecorded(steps, Flatten(runs))
    ensures forall r :: r in Flatten(runs) <==> IsRecorded(r, runs)
  {
    steps := StepsInOrder(runs, wording);
    StepsAreAsRecorded(Flatten(runs), SortedTexts(GateTargets(Flatten(runs))), wording);
    EveryRecordIsRead(runs);
  }

  /** The steps, one rule after the other. */
  method StepsInOrder(runs: seq<ProviderRun>, wording: Wording) returns (steps: seq<Step>)
    ensures steps == StepsOf(PlaybookKinds(Flatten(runs), SortedTexts(GateTargets(Flatten(runs)))), wording)
  {
    hide StepOf, StepsOf, HasDomainApi, HasAudienceApi, HasVercelEnv, HasDns, HasNonSecretGate, OwnStep, If;
    hide SortedTexts, GateTargets, CaptureKinds, Flatten, StringLe;
    var records := Flatten(runs);
    var kinds := If(HasDomainApi(records), ResendKey);
    var gateTargets := SortedGateTargets(records);
    var captures := CaptureSteps(gateTargets, records);
    kinds := kinds + captures;
    ghost var before := kinds;
    kinds := kinds + If(HasDomainApi(records), DomainApi);
    kinds := kinds + If(HasAudienceApi(records), AudienceApi);
    kinds := kinds + If(HasVercelEnv(records), EnvApi);
    kinds := kinds + If(HasDns(records), DnsApproval);
    kinds := kinds + If(HasNonSecretGate(records), FinishedStep);
    assert kinds == before + FixedKinds(records);
    if kinds == [] && records != [] {
      kinds := kinds + [Routes];
    }
    steps := StepsOf(kinds, wording);
  }

  /** One step for each gate target that has none yet. */
  method CaptureSteps(gateTargets: seq<string>, records: seq<Route>) returns (kinds: seq<Kind>)
    requires Distinct(gateTargets)
    ensures kinds == CaptureKinds(gateTargets, records)
  {
    hide HasDomainApi, TargetProvider;
    kinds := [];
    var capturedTargets: set<string> := if HasDomainApi(records) then {RESEND_KEY} else {};
    for n := 0 to |gateTargets|
      invariant kinds == CaptureKinds(gateTargets[..n], records)
      invariant forall t :: t in capturedTargets <==>
                  (t in gateTargets[..n] && OwnStep(t, records)) || (t == RESEND_KEY && HasDomainApi(records))
    {
      var target := gateTargets[n];
      assert gateTargets[..n + 1] == gateTargets[..n] + [target];
      CaptureKindsAppend(gateTargets[..n], target, records);
      if target in capturedTargets {
        continue;
      }
      kinds := kinds + [Captured(target, TargetProvider(target, records))];
      capturedTargets := capturedTargets + {target};
    }
    assert gateTargets[..|gateTargets|] == gateTargets;
  }

  lemma {:induction false} CaptureKindsAppend(targets: seq<string>, target: string, records: seq<Route>)
    ensures CaptureKinds(targets + [target], records)
         == CaptureKinds(targets, records)
            + If(OwnStep(target, records), Captured(target, TargetProvider(target, records)))
  {
    hide TargetProvider, OwnStep, If;
    if targets == [] {
      assert targets + [target] == [target];
    } else {
      assert (targets + [target])[1..] == targets[1..] + [target];
      CaptureKindsAppend(targets[1..], target, records);
    }
  }
}
