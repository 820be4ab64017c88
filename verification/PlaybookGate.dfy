/** The playbook validator, and what it says about every generated playbook. */
module PlaybookGate {
  import opened Playbook
  import opened Sorting
  import opened Text

  datatype Failure = NoSteps | BadStep(index: nat) | DuplicateId(id: string) | OutOfOrder(before: string, after: string)

  // ------------------------------------------------------- the rule

  predicate AllTrimmed(s: Step) {
    && Trimmed(s.id) && Trimmed(s.provider) && Trimmed(s.route) && Trimmed(s.control)
    && Trimmed(s.instruction) && Trimmed(s.actor) && Trimmed(s.proofSource) && Trimmed(s.resumeEvent)
  }

  predicate AllPresent(s: Step) {
    && s.id != "" && s.provider != "" && s.instruction != "" && s.control != ""
    && s.actor != "" && s.proofSource != "" && s.resumeEvent != ""
  }

  predicate ActorOk(s: Step) {
    && (IsMachineRoute(s.route) ==> s.actor == "FuseKit" && s.human == Required(false))
    && (IsHumanRoute(s.route) ==> s.actor == "You" && s.human == Required(true))
  }

  predicate ControlOk(s: Step) {
    && (s.route == API ==> s.control == WORKER)
    && (IsCaptureRoute(s.route) ==> StartsWith(s.control, "Capture ") && EndsWith(s.control, " from VM clipboard"))
    && (s.route == FOLLOW_ME ==> s.control == FINISHED_CONTROL || s.control == DNS_CONTROL || s.control == PLAN_CONTROL)
    && (StartsWith(s.id, "resend.") && s.route == BROWSER ==> s.control == CaptureControl(RESEND_KEY))
  }

  predicate ProofOk(s: Step) {
    && (IsMachineRoute(s.route) ==> s.proofSource == RECEIPT && s.resumeEvent == RECORDED)
    && (IsCaptureRoute(s.route) ==> s.proofSource == GATE_EVENTS && s.resumeEvent == CAPTURED)
    && (s.route == FOLLOW_ME ==>
          s.proofSource == GATE_EVENTS
            && (s.resumeEvent == RESUME || s.resumeEvent == DNS_APPROVED || s.resumeEvent == PLAN_APPROVED))
  }

  predicate StepAccepted(s: Step) {
    && AllTrimmed(s) && AllPresent(s)
    && (IsMachineRoute(s.route) || IsHumanRoute(s.route))
    && ActorOk(s) && ControlOk(s) && ProofOk(s)
  }

  /** Route by route, what the validator asks of a step. */
  predicate FitsItsRoute(s: Step) {
    match s.route
    case "api" => OfFuseKit(s) && s.control == "FuseKit API worker"
    case "official_cli" => OfFuseKit(s)
    case "browser_guided" =>
      && OfUser(s) && IsCaptureControl(s.control) && s.resumeEvent == "clipboard_captured -> resume_requested"
      && (StartsWith(s.id, "resend.") ==> s.control == "Capture RESEND_API_KEY from VM clipboard")
    case "local_vault" =>
      OfUser(s) && IsCaptureControl(s.control) && s.resumeEvent == "clipboard_captured -> resume_requested"
    case "human_follow_me" =>
      && OfUser(s)
      && s.control in {"I finished this step", "Approve DNS apply", "Approve setup plan"}
      && s.resumeEvent in {"resume_requested", "dns_apply_approved -> resume_requested",
                           "setup_plan_approved -> resume_requested"}
    case _ => false
  }

  predicate OfFuseKit(s: Step) {
    && s.actor == "FuseKit" && s.human == Required(false)
    && s.proofSource == "setup_receipt.json" && s.resumeEvent == "provider_action_recorded"
  }

  predicate OfUser(s: Step) { s.actor == "You" && s.human == Required(true) && s.proofSource == "gate_events.jsonl" }

  predicate IsCaptureControl(control: string) {
    StartsWith(control, "Capture ") && EndsWith(control, " from VM clipboard")
  }

  /** An accepted step has all its texts, without white space at their ends, and fits its route. */
  lemma AcceptedStepsFit(s: Step)
    ensures StepAccepted(s) <==>
      && FitsItsRoute(s)
      && IsText(s.id) && IsText(s.provider) && IsText(s.route) && IsText(s.control) && IsText(s.instruction)
      && IsText(s.actor) && IsText(s.proofSource) && IsText(s.resumeEvent)
  {
    hide Trimmed;
    RouteByRoute(s);
    hide FitsItsRoute, ActorOk, ControlOk, ProofOk, IsMachineRoute, IsHumanRoute;
    assert FitsItsRoute(s) ==> s.route != "" by {
      RoutesAreNamed(s);
    }
  }

  lemma RoutesAreNamed(s: Step)
    ensures FitsItsRoute(s) ==> s.route != ""
  {
    hide OfFuseKit, OfUser, IsCaptureControl;
    assert |"api"| == 3 && |"official_cli"| == 12 && |"browser_guided"| == 14 && |"local_vault"| == 11
        && |"human_follow_me"| == 15;
  }

  lemma RouteByRoute(s: Step)
    ensures (IsMachineRoute(s.route) || IsHumanRoute(s.route)) && ActorOk(s) && ControlOk(s) && ProofOk(s) <==>
            FitsItsRoute(s)
  {
    hide StartsWith, EndsWith, CaptureControl;
    ResendControl();
  }

  lemma ResendControl()
    ensures CaptureControl(RESEND_KEY) == "Capture RESEND_API_KEY from VM clipboard"
  {
  }

  predicate IsText(text: string) { text != "" && Trimmed(text) }

  function Ids(steps: seq<Step>): seq<string> { Map(steps, (s: Step) => s.id) }

  const REQUIRED_PAIRS: seq<(string, string)> := [
    ("resend.capture_key", "resend.domain_api"),
    ("resend.domain_api", "resend.audience_api"),
    ("resend.domain_api", "vercel.env_api"),
    ("resend.audience_api", "vercel.env_api"),
    ("resend.domain_api", "dns.approval"),
    ("vercel.env_api", "dns.approval")
  ]

  ghost predicate PairInOrder(ids: seq<string>, pair: (string, string)) {
    forall i, j :: 0 <= i < |ids| && 0 <= j < |ids| && ids[i] == pair.0 && ids[j] == pair.1 ==> i <= j
  }

  ghost predicate InOrder(ids: seq<string>) {
    forall p :: p in REQUIRED_PAIRS ==> PairInOrder(ids, p)
  }

  ghost predicate Accepted(steps: seq<Step>) {
    && steps != []
    && (forall i :: 0 <= i < |steps| ==> StepAccepted(steps[i]))
    && Distinct(Ids(steps))
    && InOrder(Ids(steps))
  }

  // ------------------------------------------------------- the check

  /** `_provider_playbook_preflight_failures`, without the wording rules. */
  method PlaybookFailures(steps: seq<Step>) returns (failures: seq<Failure>)
    ensures failures == [] <==> Accepted(steps)
  {
    hide StepAccepted;
    if steps == [] {
      return [NoSteps];
    }
    failures := [];
    var stepIds: seq<string> := [];
    for n := 0 to |steps|
      invariant failures == [] <==> (forall i :: 0 <= i < n ==> StepAccepted(steps[i])) && Distinct(Ids(steps[..n]))
      invariant failures == [] ==> stepIds == Ids(steps[..n])
    {
      assert Ids(steps[..n + 1]) == Ids(steps[..n]) + [steps[n].id];
      AcceptedIdIsPresent(steps[n]);
      var id := Strip(steps[n].id);
      if id != "" {
        if id in stepIds {
          failures := failures + [DuplicateId(id)];
        }
        stepIds := stepIds + [id];
      }
      if !StepAccepted(steps[n]) {
        failures := failures + [BadStep(n)];
      }
    }
    assert steps[..|steps|] == steps;
    var disorder := OrderFailures(stepIds);
    failures := failures + disorder;
  }

  lemma AcceptedIdIsPresent(s: Step)
    ensures StepAccepted(s) ==> s.id != "" && Strip(s.id) == s.id
  {
    StripTrimmed(s.id);
  }

  /** `_provider_playbook_order_preflight_failures`. */
  method OrderFailures(ids: seq<string>) returns (failures: seq<Failure>)
    ensures failures == [] <==> Distinct(ids) && InOrder(ids)
  {
    if i, j :| 0 <= i < j < |ids| && ids[i] == ids[j] {
      return [DuplicateId(ids[i])];
    }
    var positions: map<string, nat> := map[];
    for n := 0 to |ids|
      invariant forall id :: id in positions <==> id in ids[..n]
      invariant forall id :: id in positions ==> positions[id] < n && ids[positions[id]] == id
    {
      positions := positions[ids[n] := n];
    }
    failures := [];
    for k := 0 to |REQUIRED_PAIRS|
      invariant failures == [] <==> forall m :: 0 <= m < k ==> PairInOrder(ids, REQUIRED_PAIRS[m])
    {
      var (before, after) := REQUIRED_PAIRS[k];
      if before in positions && after in positions {
        assert PairInOrder(ids, REQUIRED_PAIRS[k]) <==> positions[before] <= positions[after];
        if positions[before] > positions[after] {
          failures := failures + [OutOfOrder(before, after)];
        }
      } else {
        assert PairInOrder(ids, REQUIRED_PAIRS[k]);
      }
    }
  }

  // ------------------------------------------------------- ids of generated steps

  ghost predicate ProperWording(wording: Wording) {
    forall k :: wording(k) != "" && Trimmed(wording(k))
  }

  /** What the generator knows about a captured target and its provider. */
  predicate ProperKind(k: Kind) {
    k.Captured? ==>
      && k.target != "" && Trimmed(k.target) && Upper(k.target) == k.target
      && k.provider != "" && Trimmed(k.provider)
  }

  predicate IsToken(k: Kind, provider: string) {
    k.Captured? && k.provider == provider && provider in TOKEN_PROVIDERS
  }

  lemma LowerIsInjectiveOnUpper(a: string, b: string)
    requires Upper(a) == a && Upper(b) == b && Lower(a) == Lower(b)
    ensures a == b
  {
    assert |a| == |Lower(a)| == |Lower(b)| == |b|;
    forall i | 0 <= i < |a| ensures a[i] == b[i] {
      assert UpperChar(a[i]) == a[i] && UpperChar(b[i]) == b[i];
      assert LowerChar(a[i]) == Lower(a)[i] == Lower(b)[i] == LowerChar(b[i]);
    }
  }

  lemma CapturedIds(a: Kind, b: Kind)
    requires a.Captured? && b.Captured? && ProperKind(a) && ProperKind(b)
    ensures IdOf(a) == IdOf(b) <==>
            if a.provider in TOKEN_PROVIDERS || b.provider in TOKEN_PROVIDERS then a.provider == b.provider
            else a.target == b.target
  {
    CapturedIdShape(a);
    CapturedIdShape(b);
    if a.provider in TOKEN_PROVIDERS && b.provider in TOKEN_PROVIDERS {
      TokenProvidersByLetters(a.provider, b.provider);
    }
    hide IdOf, Lower, Upper, Trimmed, TOKEN_PROVIDERS;
    if a.provider !in TOKEN_PROVIDERS && b.provider !in TOKEN_PROVIDERS && IdOf(a) == IdOf(b) {
      LowerIsInjectiveOnUpper(a.target, b.target);
    }
  }

  lemma CapturedIdShape(k: Kind)
    requires k.Captured?
    ensures |IdOf(k)| >= 8
    ensures if k.provider in TOKEN_PROVIDERS then TokenIdShape(IdOf(k), k.provider)
      else CaptureIdShape(IdOf(k), k.target)
  {
  }

  predicate TokenIdShape(id: string, provider: string) {
    && |id| >= 2 && |provider| >= 2 && id == provider + ".capture_token"
    && id[0] == provider[0] && id[1] == provider[1] && provider[1] != 'a'
  }

  predicate CaptureIdShape(id: string, target: string) {
    |id| >= 8 && id[8..] == Lower(target) && id == "capture." + Lower(target) && id[1] == 'a'
  }

  /** Token providers differ in their first letter. */
  lemma TokenProvidersByLetters(p: string, q: string)
    requires p in TOKEN_PROVIDERS && q in TOKEN_PROVIDERS
    ensures p != "" && q != "" && (p[0] == q[0] ==> p == q)
  {
  }

  /** Two different steps share an id exactly when they capture values of one token provider. */
  lemma WhenIdsClash(a: Kind, b: Kind)
    requires ProperKind(a) && ProperKind(b)
    requires a.Captured? && b.Captured? ==> a.target != b.target
    requires a != b
    ensures IdOf(a) == IdOf(b) <==> a.Captured? && IsToken(a, a.provider) && IsToken(b, a.provider)
  {
    hide IdOf, Trimmed, Upper;
    if a.Captured? && b.Captured? {
      CapturedIds(a, b);
    } else if a.Captured? {
      CapturedIdIsNotFixed(a, b);
    } else if b.Captured? {
      CapturedIdIsNotFixed(b, a);
    } else if IdOf(a) == IdOf(b) {
      FixedIdsDiffer(a, b);
    }
  }

  // ------------------------------------------------------- one generated step

  lemma CaptureControlShape(target: string)
    ensures var c := CaptureControl(target);
            StartsWith(c, "Capture ") && EndsWith(c, " from VM clipboard") && Trimmed(c) && c != ""
  {
    var c := CaptureControl(target);
    assert c[..8] == "Capture ";
    assert c[|c| - 18..] == " from VM clipboard";
    assert c[0] == 'C' && c[|c| - 1] == 'd';
  }

  lemma ConstantsAreTrimmed()
    ensures Trimmed(API) && Trimmed(BROWSER) && Trimmed(FOLLOW_ME) && Trimmed(WORKER)
    ensures Trimmed(DNS_CONTROL) && Trimmed(FINISHED_CONTROL) && Trimmed(RECEIPT) && Trimmed(GATE_EVENTS)
    ensures Trimmed(RECORDED) && Trimmed(CAPTURED) && Trimmed(DNS_APPROVED) && Trimmed(RESUME)
    ensures Trimmed("FuseKit") && Trimmed("You")
  {
  }

  lemma RoutesStrip()
    ensures Strip(API) == API && Strip(BROWSER) == BROWSER && Strip(FOLLOW_ME) == FOLLOW_ME
    ensures Strip(DNS_CONTROL) == DNS_CONTROL && Strip(FINISHED_CONTROL) == FINISHED_CONTROL
  {
    hide Trimmed, Strip;
    ConstantsAreTrimmed();
    StripTrimmed(API);
    StripTrimmed(BROWSER);
    StripTrimmed(FOLLOW_ME);
    StripTrimmed(DNS_CONTROL);
    StripTrimmed(FINISHED_CONTROL);
  }

  lemma IdIsProper(k: Kind)
    requires ProperKind(k)
    ensures IdOf(k) != "" && Trimmed(IdOf(k))
    ensures k.Captured? ==> !StartsWith(IdOf(k), "resend.")
  {
    var id := IdOf(k);
    if k.Captured? {
      if k.provider in TOKEN_PROVIDERS {
        assert id[0] == k.provider[0] && id[|id| - 1] == 'n';
      } else {
        assert id[0] == 'c' && id[|id| - 1] == LowerChar(k.target[|k.target| - 1]);
      }
      PrefixHead(id, "resend.");
    } else {
      assert id[0] in {'r', 'v', 'd', 'p'} && id[|id| - 1] in {'y', 'i', 'l', 'p', 's'};
    }
  }

  lemma MachineStepAccepted(id: string, instruction: string, provider: string)
    requires id != "" && Trimmed(id) && instruction != "" && Trimmed(instruction) && provider != "" && Trimmed(provider)
    ensures StepAccepted(MakeStep(id, instruction, WORKER, provider, API))
  {
    RoutesStrip();
    ConstantsAreTrimmed();
    hide Trimmed, Strip;
  }

  lemma CaptureStepAccepted(id: string, instruction: string, target: string, provider: string)
    requires id != "" && Trimmed(id) && instruction != "" && Trimmed(instruction) && provider != "" && Trimmed(provider)
    requires StartsWith(id, "resend.") ==> target == RESEND_KEY
    ensures StepAccepted(MakeStep(id, instruction, CaptureControl(target), provider, BROWSER))
  {
    RoutesStrip();
    ConstantsAreTrimmed();
    CaptureControlShape(target);
    hide Trimmed, Strip, StartsWith, EndsWith, CaptureControl;
  }

  lemma FollowMeStepAccepted(id: string, instruction: string, control: string, provider: string)
    requires id != "" && Trimmed(id) && instruction != "" && Trimmed(instruction) && provider != "" && Trimmed(provider)
    requires control == DNS_CONTROL || control == FINISHED_CONTROL
    ensures StepAccepted(MakeStep(id, instruction, control, provider, FOLLOW_ME))
  {
    RoutesStrip();
    ConstantsAreTrimmed();
    hide Trimmed, Strip;
  }

  lemma GeneratedStepAccepted(k: Kind, wording: Wording)
    requires ProperKind(k) && ProperWording(wording)
    ensures StepAccepted(StepOf(k, wording))
  {
    hide StepAccepted, IdOf, MakeStep;
    IdIsProper(k);
    match k
    case ResendKey => CaptureStepAccepted(IdOf(k), wording(k), RESEND_KEY, "resend");
    case Captured(target, provider) => CaptureStepAccepted(IdOf(k), wording(k), target, provider);
    case DomainApi => MachineStepAccepted(IdOf(k), wording(k), "resend");
    case AudienceApi => MachineStepAccepted(IdOf(k), wording(k), "resend");
    case EnvApi => MachineStepAccepted(IdOf(k), wording(k), "vercel");
    case DnsApproval => FollowMeStepAccepted(IdOf(k), wording(k), DNS_CONTROL, "dns");
    case FinishedStep => FollowMeStepAccepted(IdOf(k), wording(k), FINISHED_CONTROL, "provider");
    case Routes => MachineStepAccepted(IdOf(k), wording(k), "provider");
  }

  // ------------------------------------------------------- the generated list

  function Rank(k: Kind): int {
    match k
    case ResendKey => 0
    case Captured(_, _) => 1
    case DomainApi => 2
    case AudienceApi => 3
    case EnvApi => 4
    case DnsApproval => 5
    case FinishedStep => 6
    case Routes => 7
  }

  /** Steps come in the order of their rank; only captures share one, and those have
      different targets. */
  ghost predicate Layered(kinds: seq<Kind>) {
    forall i, j :: 0 <= i < j < |kinds| ==>
      || Rank(kinds[i]) < Rank(kinds[j])
      || (kinds[i].Captured? && kinds[j].Captured? && kinds[i].target != kinds[j].target)
  }

  predicate ProperTarget(target: string) {
    target != "" && Trimmed(target) && Upper(target) == target
  }

  lemma GateTargetsAreProper(records: seq<Route>)
    ensures forall t :: t in GateTargets(records) ==> ProperTarget(t)
  {
    forall r | r in records && Strip(r.target) != ""
      ensures ProperTarget(TargetOf(r))
    {
      var s := Strip(r.target);
      assert forall i :: 0 <= i < |s| ==> (IsSpace(Upper(s)[i]) <==> IsSpace(s[i]));
      assert Upper(Upper(s)) == Upper(s);
    }
  }

  lemma {:induction false} TargetProviderIsProper(target: string, records: seq<Route>)
    ensures TargetProvider(target, records) != "" && Trimmed(TargetProvider(target, records))
  {
    if records == [] {
      DefaultProviderIsProper(target);
    } else {
      LowerStaysTrimmed(records[0].provider);
      LowerStaysTrimmed(Strip(records[0].provider));
      hide Trimmed, Strip, Lower;
      TargetProviderIsProper(target, records[1..]);
    }
  }

  lemma DefaultProviderIsProper(target: string)
    ensures TargetProvider(target, []) != "" && Trimmed(TargetProvider(target, []))
  {
    var p := TargetProvider(target, []);
    assert p[0] in {'c', 'g', 'v', 'p'} && p[|p| - 1] in {'e', 'b', 'l', 'r'};
  }

  lemma LowerStaysTrimmed(s: string)
    ensures Trimmed(s) ==> Trimmed(Lower(s))
    ensures Trimmed(Strip(s))
  {
    assert forall i :: 0 <= i < |s| ==> (IsSpace(Lower(s)[i]) <==> IsSpace(s[i]));
  }

  lemma {:induction false} CapturesAreLayered(targets: seq<string>, records: seq<Route>)
    requires Distinct(targets) && forall t :: t in targets ==> ProperTarget(t)
    ensures var kinds := CaptureKinds(targets, records);
            && Layered(kinds)
            && (forall k :: k in kinds ==> k.Captured? && ProperKind(k) && k.target in targets)
            && (forall k :: k in kinds ==>
              k.provider == TargetProvider(k.target, records) && OwnStep(k.target, records))
            && (forall t :: t in targets && OwnStep(t, records) ==> Captured(t, TargetProvider(t, records)) in kinds)
  {
    hide TargetProvider, OwnStep, Trimmed, Upper;
    if targets != [] {
      TargetProviderIsProper(targets[0], records);
      CapturesAreLayered(targets[1..], records);
      var rest := CaptureKinds(targets[1..], records);
      assert targets == [targets[0]] + targets[1..];
      assert targets[0] in targets && ProperTarget(targets[0]);
      forall k | k in rest ensures k.target != targets[0] && k.target in targets {
        assert k.target in targets[1..];
      }
    }
  }

  lemma FixedAreLayered(records: seq<Route>)
    ensures Layered(FixedKinds(records))
    ensures forall k :: k in FixedKinds(records) ==> 2 <= Rank(k) <= 6 && !k.Captured?
  {
    hide HasDomainApi, HasAudienceApi, HasVercelEnv, HasDns, HasNonSecretGate;
    IfIsLayered(HasDomainApi(records), DomainApi);
    IfIsLayered(HasAudienceApi(records), AudienceApi);
    IfIsLayered(HasVercelEnv(records), EnvApi);
    IfIsLayered(HasDns(records), DnsApproval);
    IfIsLayered(HasNonSecretGate(records), FinishedStep);
    hide If, Layered;
    var a := If(HasDomainApi(records), DomainApi);
    var b := If(HasAudienceApi(records), AudienceApi);
    var c := If(HasVercelEnv(records), EnvApi);
    var d := If(HasDns(records), DnsApproval);
    var e := If(HasNonSecretGate(records), FinishedStep);
    LayersJoin(a, b, 2);
    LayersJoin(a + b, c, 3);
    LayersJoin(a + b + c, d, 4);
    LayersJoin(a + b + c + d, e, 5);
  }

  lemma IfIsLayered(b: bool, k: Kind)
    ensures Layered(If(b, k)) && forall x :: x in If(b, k) ==> x == k
  {
  }

  lemma LayersJoin(a: seq<Kind>, b: seq<Kind>, border: int)
    requires Layered(a) && Layered(b)
    requires forall k :: k in a ==> Rank(k) <= border
    requires forall k :: k in b ==> Rank(k) > border
    ensures Layered(a + b)
  {
    var s := a + b;
    forall i, j | 0 <= i < j < |s|
      ensures Rank(s[i]) < Rank(s[j]) || (s[i].Captured? && s[j].Captured? && s[i].target != s[j].target)
    {
      if i < |a| <= j {
        assert s[i] in a && s[j] in b;
      }
    }
  }

  lemma PlaybookIsLayered(records: seq<Route>, targets: seq<string>)
    requires Lists(GateTargets(records), targets)
    ensures Layered(PlaybookKinds(records, targets))
    ensures forall k :: k in PlaybookKinds(records, targets) ==> ProperKind(k)
    ensures forall k :: k in PlaybookKinds(records, targets) && k.Captured? ==> k in CaptureKinds(targets, records)
    ensures forall k :: k in CaptureKinds(targets, records) ==> k in PlaybookKinds(records, targets)
    ensures records != [] ==> PlaybookKinds(records, targets) != []
  {
    hide GateTargets, HasDomainApi, FixedKinds, CaptureKinds, ProperTarget;
    GateTargetsAreProper(records);
    CapturesAreLayered(targets, records);
    FixedAreLayered(records);
    var a, b, c := If(HasDomainApi(records), ResendKey), CaptureKinds(targets, records), FixedKinds(records);
    LayersJoin(a, b, 0);
    LayersJoin(a + b, c, 1);
  }

  /** Each token provider has at most one captured target with a step of its own. */
  ghost predicate AtMostOneToken(records: seq<Route>, targets: seq<string>) {
    forall t, u :: t in targets && u in targets && OwnStep(t, records) && OwnStep(u, records)
      && TargetProvider(t, records) == TargetProvider(u, records) && TargetProvider(t, records) in TOKEN_PROVIDERS
      ==> t == u
  }

  lemma IdsOfGenerated(records: seq<Route>, targets: seq<string>, wording: Wording)
    requires Lists(GateTargets(records), targets)
    ensures Distinct(Ids(StepsOf(PlaybookKinds(records, targets), wording))) <==> AtMostOneToken(records, targets)
  {
    hide PlaybookKinds, CaptureKinds, GateTargets, OwnStep, TargetProvider, IdOf, ProperKind, ProperTarget;
    var kinds := PlaybookKinds(records, targets);
    PlaybookIsLayered(records, targets);
    GateTargetsAreProper(records);
    CapturesAreLayered(targets, records);
    var ids := Ids(StepsOf(kinds, wording));
    GeneratedIds(kinds, wording);
    if AtMostOneToken(records, targets) {
      forall i, j | 0 <= i < j < |ids| ensures ids[i] != ids[j] {
        assert kinds[i] in kinds && kinds[j] in kinds;
        WhenIdsClash(kinds[i], kinds[j]);
      }
    }
    if Distinct(ids) {
      forall t, u | t in targets && u in targets && OwnStep(t, records) && OwnStep(u, records)
        && TargetProvider(t, records) == TargetProvider(u, records) && TargetProvider(t, records) in TOKEN_PROVIDERS
        ensures t == u
      {
        var a, b := Captured(t, TargetProvider(t, records)), Captured(u, TargetProvider(u, records));
        assert a in kinds && b in kinds;
        var i :| 0 <= i < |kinds| && kinds[i] == a;
        var j :| 0 <= j < |kinds| && kinds[j] == b;
        if t != u {
          WhenIdsClash(a, b);
          SameElementsSameIndex(ids, i, j);
        }
      }
    }
  }

  lemma SameElementsSameIndex(ids: seq<string>, i: int, j: int)
    requires Distinct(ids) && 0 <= i < |ids| && 0 <= j < |ids| && ids[i] == ids[j]
    ensures i == j
  {
  }

  lemma GeneratedIds(kinds: seq<Kind>, wording: Wording)
    ensures |Ids(StepsOf(kinds, wording))| == |kinds|
    ensures forall i :: 0 <= i < |kinds| ==> Ids(StepsOf(kinds, wording))[i] == IdOf(kinds[i])
  {
    hide IdOf;
  }

  /** Where an id of a required pair comes from. */
  lemma PairIds(k: Kind, pair: (string, string))
    requires ProperKind(k) && pair in REQUIRED_PAIRS
    ensures IdOf(k) == pair.0 ==> k in {ResendKey, DomainApi, AudienceApi, EnvApi} && pair.0 == IdOf(k)
    ensures IdOf(k) == pair.1 ==> k in {DomainApi, AudienceApi, EnvApi, DnsApproval}
  {
    hide IdOf, Trimmed;
    var fixed := [ResendKey, DomainApi, AudienceApi, EnvApi, DnsApproval];
    assert pair.0 in {IdOf(ResendKey), IdOf(DomainApi), IdOf(AudienceApi), IdOf(EnvApi)} by { PairsAreFixed(pair); }
    assert pair.1 in {IdOf(DomainApi), IdOf(AudienceApi), IdOf(EnvApi), IdOf(DnsApproval)} by { PairsAreFixed(pair); }
    forall f | f in fixed ensures IdOf(k) == IdOf(f) ==> k == f {
      if k.Captured? {
        CapturedIdIsNotFixed(k, f);
      } else if IdOf(k) == IdOf(f) {
        FixedIdsDiffer(k, f);
      }
    }
    assert fixed[0] in fixed && fixed[1] in fixed && fixed[2] in fixed && fixed[3] in fixed && fixed[4] in fixed;
  }

  lemma PairsAreFixed(pair: (string, string))
    requires pair in REQUIRED_PAIRS
    ensures || pair == (IdOf(ResendKey), IdOf(DomainApi))
            || pair == (IdOf(DomainApi), IdOf(AudienceApi))
            || pair == (IdOf(DomainApi), IdOf(EnvApi))
            || pair == (IdOf(AudienceApi), IdOf(EnvApi))
            || pair == (IdOf(DomainApi), IdOf(DnsApproval))
            || pair == (IdOf(EnvApi), IdOf(DnsApproval))
  {
  }

  lemma PairRanks(a: Kind, b: Kind, pair: (string, string))
    requires ProperKind(a) && ProperKind(b) && pair in REQUIRED_PAIRS
    requires IdOf(a) == pair.0 && IdOf(b) == pair.1
    ensures Rank(a) < Rank(b)
  {
    hide IdOf, Trimmed;
    PairIds(a, pair);
    PairIds(b, pair);
    PairsAreFixed(pair);
    forall x: Kind, y: Kind | x in {ResendKey, DomainApi, AudienceApi, EnvApi, DnsApproval} && !y.Captured?
      && IdOf(x) == IdOf(y) ensures x == y {
      FixedIdsDiffer(x, y);
    }
  }

  lemma GeneratedInOrder(records: seq<Route>, targets: seq<string>, wording: Wording)
    requires Lists(GateTargets(records), targets)
    ensures InOrder(Ids(StepsOf(PlaybookKinds(records, targets), wording)))
  {
    hide PlaybookKinds, GateTargets, CaptureKinds, IdOf, ProperKind;
    var kinds := PlaybookKinds(records, targets);
    PlaybookIsLayered(records, targets);
    GeneratedIds(kinds, wording);
    var ids := Ids(StepsOf(kinds, wording));
    forall p | p in REQUIRED_PAIRS ensures PairInOrder(ids, p) {
      forall i, j | 0 <= i < |ids| && 0 <= j < |ids| && ids[i] == p.0 && ids[j] == p.1
        ensures i <= j
      {
        assert kinds[i] in kinds && kinds[j] in kinds;
        PairRanks(kinds[i], kinds[j], p);
      }
    }
  }

  /** The validator accepts the playbook generated from any non-empty list of routes
      exactly when cloudflare, github and vercel contribute at most one captured target
      each. */
  lemma GeneratedPlaybookAccepted(runs: seq<ProviderRun>, targets: seq<string>, wording: Wording)
    requires ProperWording(wording) && Flatten(runs) != []
    requires Lists(GateTargets(Flatten(runs)), targets)
    ensures Accepted(StepsOf(PlaybookKinds(Flatten(runs), targets), wording))
       <==> AtMostOneToken(Flatten(runs), targets)
  {
    hide PlaybookKinds, GateTargets, CaptureKinds, AtMostOneToken, StepAccepted, StepOf, ProperKind, InOrder, Ids;
    var records := Flatten(runs);
    var kinds := PlaybookKinds(records, targets);
    PlaybookIsLayered(records, targets);
    IdsOfGenerated(records, targets, wording);
    GeneratedInOrder(records, targets, wording);
    forall i | 0 <= i < |kinds| ensures StepAccepted(StepsOf(kinds, wording)[i]) {
      assert kinds[i] in kinds;
      GeneratedStepAccepted(kinds[i], wording);
    }
  }

  function Gate(provider: string, target: string): Route {
    Route(provider, BROWSER, "", target, "", "")
  }

  /** Two gates of one token provider are enough for a playbook the validator refuses. */
  lemma TwoTokensClash(provider: string, t: string, u: string, wording: Wording)
    requires provider in TOKEN_PROVIDERS && t != u && t != RESEND_KEY && u != RESEND_KEY
    requires ProperTarget(t) && ProperTarget(u) && ProperWording(wording)
    ensures var runs := TwoGates(provider, t, u);
            && GateTargets(Flatten(runs)) == {t, u}
            && !Accepted(StepsOf(PlaybookKinds(Flatten(runs), SortedTexts(GateTargets(Flatten(runs)))), wording))
  {
    var runs := TwoGates(provider, t, u);
    var records := [Gate(provider, t), Gate(provider, u)];
    FlattenOne(provider, t, u);
    TwoGatesName(provider, t, u);
    hide TargetProvider, Gate, TargetOf, IsGate, HasDomainApi, ProperTarget, Flatten, GateTargets, SortedTexts,
      Accepted, ProperWording, TwoGates;
    var targets := SortedTexts(GateTargets(records));
    assert t in targets && u in targets;
    GeneratedPlaybookAccepted(runs, targets, wording);
  }

  lemma TwoGatesName(provider: string, t: string, u: string)
    requires provider in TOKEN_PROVIDERS && t != u && ProperTarget(t) && ProperTarget(u)
    ensures var records := [Gate(provider, t), Gate(provider, u)];
            && GateTargets(records) == {t, u}
            && TargetProvider(t, records) == provider && TargetProvider(u, records) == provider
            && !HasDomainApi(records)
  {
    var records := [Gate(provider, t), Gate(provider, u)];
    GateNames(provider, t, [Gate(provider, u)]);
    GateNames(provider, u, []);
    GatePassesOver(provider, t, u, [Gate(provider, u)]);
    assert records == [Gate(provider, t)] + [Gate(provider, u)];
    assert [Gate(provider, u)] + [] == [Gate(provider, u)];
    GateIsNoDomainApi(provider, t);
    GateIsNoDomainApi(provider, u);
    hide TargetProvider, Gate, TargetOf, IsGate, IsResendDomainApi, ProperTarget, TOKEN_PROVIDERS, Strip;
    TargetsOfTwo(records, t, u);
    assert forall r :: r in records ==> r == records[0] || r == records[1];
  }

  lemma GateIsNoDomainApi(provider: string, target: string)
    requires provider in TOKEN_PROVIDERS
    ensures !IsResendDomainApi(Gate(provider, target))
  {
    TokenProvidersAreLower(provider);
    hide Strip, Lower;
  }

  /** The run of a provider that stops at two gates. */
  function TwoGates(provider: string, t: string, u: string): seq<ProviderRun> {
    [ProviderRun(provider, [Gate(provider, t), Gate(provider, u)])]
  }

  lemma FlattenOne(provider: string, t: string, u: string)
    requires provider in TOKEN_PROVIDERS
    ensures Flatten(TwoGates(provider, t, u)) == [Gate(provider, t), Gate(provider, u)]
  {
    TokenProvidersAreLower(provider);
    StripTrimmed(provider);
    hide Strip, Lower, Upper;
    assert TwoGates(provider, t, u)[1..] == [];
    assert Gate(provider, t).(provider := provider) == Gate(provider, t);
  }

  lemma TargetsOfTwo(records: seq<Route>, t: string, u: string)
    requires |records| == 2 && IsGate(records[0]) && IsGate(records[1])
    requires Strip(records[0].target) != "" && Strip(records[1].target) != ""
    requires TargetOf(records[0]) == t && TargetOf(records[1]) == u
    ensures GateTargets(records) == {t, u}
  {
    hide Strip, TargetOf, IsGate;
  }

  /** Generator and validator, end to end: what the one builds of two such gates the other
      refuses. */
  method TwoTokensAreRefused(provider: string, t: string, u: string, wording: Wording) returns (failures: seq<Failure>)
    requires provider in TOKEN_PROVIDERS && t != u && t != RESEND_KEY && u != RESEND_KEY
    requires ProperTarget(t) && ProperTarget(u) && ProperWording(wording)
    ensures failures != []
  {
    hide Accepted, StepsOf, PlaybookKinds, Flatten, GateTargets, SortedTexts, ProperTarget, ProperWording;
    TwoTokensClash(provider, t, u, wording);
    var steps := ProviderPlaybook(TwoGates(provider, t, u), wording);
    failures := PlaybookFailures(steps);
  }

  lemma GateNames(provider: string, target: string, rest: seq<Route>)
    requires provider in TOKEN_PROVIDERS && ProperTarget(target)
    ensures TargetProvider(target, [Gate(provider, target)] + rest) == provider
    ensures IsGate(Gate(provider, target)) && TargetOf(Gate(provider, target)) == target
    ensures Strip(Gate(provider, target).target) != ""
  {
    TokenProvidersAreLower(provider);
    StripTrimmed(provider);
    StripTrimmed(target);
    RoutesStrip();
    hide Strip, Lower, Upper;
  }

  lemma GatePassesOver(provider: string, other: string, target: string, rest: seq<Route>)
    requires ProperTarget(other) && other != target
    ensures TargetProvider(target, [Gate(provider, other)] + rest) == TargetProvider(target, rest)
  {
    StripTrimmed(other);
    hide Strip, Lower, Upper;
    assert ([Gate(provider, other)] + rest)[1..] == rest;
  }

  lemma TokenProvidersAreLower(provider: string)
    requires provider in TOKEN_PROVIDERS
    ensures Lower(provider) == provider && Trimmed(provider) && provider != "provider" && provider != ""
  {
    assert provider[0] in {'c', 'g', 'v'};
  }
}
