/** The ordered, resumable setup of a manifest's providers (cli.py). */
module ProviderSetup {
  import opened Outcomes
  import opened Sorting
  import opened Text

  // ------------------------------------------------------- order

  predicate IsDns(provider: string) { provider == "cloudflare" || provider == "dns" }

  function Priority(provider: string): int {
    if provider == "github" then 10
    else if provider == "resend" then 20
    else if provider == "vercel" then 30
    else if IsDns(provider) then 90
    else 50
  }

  /** By priority, then by name. */
  predicate ProviderLe(a: string, b: string) {
    Priority(a) < Priority(b) || (Priority(a) == Priority(b) && StringLe(a, b))
  }

  lemma ProviderOrder()
    ensures TotalOrder(ProviderLe)
  {
    hide StringLe, Priority;
    StringOrder();
  }

  /** The names of the providers dictionary: lower case, each once. */
  function Names(services: seq<string>): (r: seq<string>)
    ensures Distinct(r) && forall p :: p in r <==> exists i :: 0 <= i < |services| && Lower(services[i]) == p
  {
    if services == [] then []
    else
      var before, last := Names(services[..|services| - 1]), Lower(services[|services| - 1]);
      if last in before then before else before + [last]
  }

  ghost predicate IsNamed(p: string, services: seq<string>) {
    exists i :: 0 <= i < |services| && Lower(services[i]) == p
  }

  /** A provider is to be set up: a service names it, or it is the Cloudflare that domains need
      where no service names a DNS provider. */
  ghost predicate Wanted(p: string, services: seq<string>, hasDomains: bool) {
    || IsNamed(p, services)
    || (p == "cloudflare" && hasDomains && !IsNamed("cloudflare", services) && !IsNamed("dns", services))
  }

  /** The providers to set up. */
  function Providers(services: seq<string>, hasDomains: bool): (r: seq<string>)
    ensures Distinct(r) && forall p :: p in r <==> Wanted(p, services, hasDomains)
  {
    var names := Names(services);
    assert "cloudflare" in names + ["cloudflare"];
    if hasDomains && "cloudflare" !in names && "dns" !in names then names + ["cloudflare"] else names
  }

  /** `_ordered_provider_services`. */
  function SetupOrder(providers: seq<string>): seq<string> { Sort(providers, ProviderLe) }

  /** The order is a listing of the same providers, each once, and DNS providers come after
      all the others. */
  lemma OrderIsAListing(providers: seq<string>)
    requires Distinct(providers)
    ensures Distinct(SetupOrder(providers)) && multiset(SetupOrder(providers)) == multiset(providers)
    ensures Ordered(SetupOrder(providers), ProviderLe)
    ensures forall i, j :: 0 <= i < j < |SetupOrder(providers)| && IsDns(SetupOrder(providers)[i]) ==>
      IsDns(SetupOrder(providers)[j])
  {
    ProviderOrder();
    SortPermutes(providers, ProviderLe);
    SortIsOrdered(providers, ProviderLe);
    PermutationKeepsDistinct(providers, SetupOrder(providers));
    var r := SetupOrder(providers);
    hide StringLe, SetupOrder;
    forall i, j | 0 <= i < j < |r| && IsDns(r[i]) ensures IsDns(r[j]) {
      assert ProviderLe(r[i], r[j]);
    }
  }

  /** How early a provider has its turn. */
  function Place(provider: string): int {
    match provider
    case "github" => 1
    case "resend" => 2
    case "vercel" => 3
    case "cloudflare" => 5
    case "dns" => 5
    case _ => 4
  }

  /** GitHub, Resend and Vercel first and in this order, the DNS providers last, and by name
      otherwise. */
  lemma OrderByPlace(providers: seq<string>)
    requires Distinct(providers)
    ensures var order := SetupOrder(providers);
            forall i, j :: 0 <= i < j < |order| ==>
              || Place(order[i]) < Place(order[j])
              || (Place(order[i]) == Place(order[j]) && StringLe(order[i], order[j]))
  {
    OrderIsAListing(providers);
    var order := SetupOrder(providers);
    hide StringLe, SetupOrder;
    forall i, j | 0 <= i < j < |order|
      ensures Place(order[i]) < Place(order[j])
           || (Place(order[i]) == Place(order[j]) && StringLe(order[i], order[j]))
    {
      assert ProviderLe(order[i], order[j]);
      PlacesAndPriorities(order[i], order[j]);
    }
  }

  lemma PlacesAndPriorities(a: string, b: string)
    ensures Place(a) < Place(b) <==> Priority(a) < Priority(b)
  {
  }

  // ------------------------------------------------------- waiting for DNS approval

  /** What one round of the wait observes: a resume request and the typed answer, stripped and
      in lower case; and the faults of looking, of recording that the gate was passed or is
      waiting, and of sleeping. */
  datatype Round = Round(resumed: bool, answer: string, looking: Fault, passing: Fault, waiting: Fault,
    sleeping: Fault)

  /** A wait that fails may have approved: args.approve_dns is set before that is recorded. */
  datatype Wait = Approved | ApprovalRequired | StillWaiting | Failed(fault: Fault, approved: bool)

  predicate Approves(round: Round, controlRoom: bool) {
    round.resumed || (!controlRoom && round.answer in {"y", "yes"})
  }

  /** `_ensure_gate_attempt_allowed` raises: no limit is zero, and a negative one is passed at
      once. */
  predicate LimitReached(limit: int, attempt: nat) { limit != 0 && attempt >= limit }

  /** The fault of the last call a round makes when a fault ends it. */
  function RoundFault(round: Round, controlRoom: bool): Fault {
    if !round.looking.Fine? then round.looking
    else if Approves(round, controlRoom) then round.passing
    else if !round.waiting.Fine? then round.waiting
    else round.sleeping
  }

  predicate GoesBy(round: Round, controlRoom: bool, limit: int, attempt: nat) {
    && round.looking.Fine? && !Approves(round, controlRoom) && round.waiting.Fine?
    && !LimitReached(limit, attempt) && round.sleeping.Fine?
  }

  /** Why a round that does not go by ends the wait. */
  function Verdict(round: Round, controlRoom: bool, limit: int, attempt: nat): Wait {
    if round.looking.Fine? && Approves(round, controlRoom) && round.passing.Fine? then Approved
    else if && round.looking.Fine? && !Approves(round, controlRoom) && round.waiting.Fine?
            && LimitReached(limit, attempt) then ApprovalRequired
    else Failed(RoundFault(round, controlRoom), round.looking.Fine? && Approves(round, controlRoom))
  }

  /** The first `k` rounds went by without approval, limit or fault. */
  ghost predicate WentBy(rounds: seq<Round>, controlRoom: bool, limit: int, k: nat) {
    k <= |rounds| && forall j :: 0 <= j < k ==> GoesBy(rounds[j], controlRoom, limit, j + 1)
  }

  /** The first of the rounds from `k` on that does not go by. */
  function Stop(rounds: seq<Round>, controlRoom: bool, limit: int, k: nat): (stop: nat)
    requires k <= |rounds|
    ensures k <= stop <= |rounds|
    ensures forall j :: k <= j < stop ==> GoesBy(rounds[j], controlRoom, limit, j + 1)
    ensures stop < |rounds| ==> !GoesBy(rounds[stop], controlRoom, limit, stop + 1)
    decreases |rounds| - k
  {
    if k == |rounds| || !GoesBy(rounds[k], controlRoom, limit, k + 1) then k
    else Stop(rounds, controlRoom, limit, k + 1)
  }

  /** What the wait comes to: the verdict on the first round that does not go by. */
  function WaitOf(rounds: seq<Round>, controlRoom: bool, limit: int): Wait {
    var stop := Stop(rounds, controlRoom, limit, 0);
    if stop == |rounds| then StillWaiting else Verdict(rounds[stop], controlRoom, limit, stop + 1)
  }

  /** `_await_dns_approval`, over the rounds observed so far: the first round that does not go
      by ends it. */
  method AwaitDnsApproval(controlRoom: bool, limit: int, rounds: seq<Round>) returns (r: Wait, attempts: nat)
    ensures r == WaitOf(rounds, controlRoom, limit)
    ensures r.StillWaiting? <==> WentBy(rounds, controlRoom, limit, |rounds|)
    ensures !r.StillWaiting? ==>
      && 0 < attempts <= |rounds| && WentBy(rounds, controlRoom, limit, attempts - 1)
      && r == Verdict(rounds[attempts - 1], controlRoom, limit, attempts)
    ensures r.Failed? ==> !r.fault.Fine?
  {
    attempts := 0;
    while attempts < |rounds|
      invariant WentBy(rounds, controlRoom, limit, attempts)
    {
      var round := rounds[attempts];
      StopIsFirst(rounds, controlRoom, limit, attempts);
      attempts := attempts + 1;
      if !round.looking.Fine? {
        return Failed(round.looking, false), attempts;
      }
      var approves := round.resumed;
      if !approves && !controlRoom {
        approves := round.answer in {"y", "yes"};
      }
      if approves {
        if !round.passing.Fine? {
          return Failed(round.passing, true), attempts;
        }
        return Approved, attempts;
      }
      if !round.waiting.Fine? {
        return Failed(round.waiting, false), attempts;
      }
      if LimitReached(limit, attempts) {
        return ApprovalRequired, attempts;
      }
      if !round.sleeping.Fine? {
        return Failed(round.sleeping, false), attempts;
      }
    }
    StopIsFirst(rounds, controlRoom, limit, attempts);
    r := StillWaiting;
  }

  lemma StopIsFirst(rounds: seq<Round>, controlRoom: bool, limit: int, k: nat)
    requires WentBy(rounds, controlRoom, limit, k)
    ensures k == |rounds| || !GoesBy(rounds[k], controlRoom, limit, k + 1) ==> Stop(rounds, controlRoom, limit, 0) == k
  {
  }

  /** Each way in which a wait can end, in terms of the round in which it does. */
  lemma WaitIsDecided(rounds: seq<Round>, controlRoom: bool, limit: int)
    ensures var wait := WaitOf(rounds, controlRoom, limit);
            && (wait.StillWaiting? <==> WentBy(rounds, controlRoom, limit, |rounds|))
            && (wait.Approved? <==>
                  exists k | 0 <= k < |rounds| && WentBy(rounds, controlRoom, limit, k) ::
                    rounds[k].looking.Fine? && Approves(rounds[k], controlRoom) && rounds[k].passing.Fine?)
            && (wait.ApprovalRequired? <==>
                  exists k | 0 <= k < |rounds| && WentBy(rounds, controlRoom, limit, k) ::
                    && rounds[k].looking.Fine? && !Approves(rounds[k], controlRoom) && rounds[k].waiting.Fine?
                    && LimitReached(limit, k + 1))
            && forall fault, approved :: wait == Failed(fault, approved) <==>
                 exists k | 0 <= k < |rounds| && WentBy(rounds, controlRoom, limit, k) ::
                   && FailsIn(rounds[k], controlRoom, limit, k + 1) && fault == RoundFault(rounds[k], controlRoom)
                   && (approved <==> rounds[k].looking.Fine? && Approves(rounds[k], controlRoom))
  {
    forall k | 0 <= k < |rounds| && WentBy(rounds, controlRoom, limit, k)
      ensures !GoesBy(rounds[k], controlRoom, limit, k + 1) ==> Stop(rounds, controlRoom, limit, 0) == k
    {
      StopIsFirst(rounds, controlRoom, limit, k);
    }
    var stop := Stop(rounds, controlRoom, limit, 0);
    assert WentBy(rounds, controlRoom, limit, stop);
  }

  /** A fault ends the round. */
  predicate FailsIn(round: Round, controlRoom: bool, limit: int, attempt: nat) {
    && !RoundFault(round, controlRoom).Fine?
    && (round.looking.Fine? && !Approves(round, controlRoom) && round.waiting.Fine? ==> !LimitReached(limit, attempt))
  }

  /** With a positive limit the wait is over within that many rounds; with a negative one it
      is over after the first; without a limit only an approval or a fault ends it. */
  lemma LimitBoundsTheWait(rounds: seq<Round>, controlRoom: bool, limit: int, k: nat)
    requires WentBy(rounds, controlRoom, limit, k)
    ensures limit > 0 ==> k < limit
    ensures limit < 0 ==> k == 0
    ensures limit == 0 ==> forall attempt: nat :: !LimitReached(limit, attempt)
  {
    if k > 0 {
      assert GoesBy(rounds[k - 1], controlRoom, limit, k - 1 + 1);
    }
  }

  // ------------------------------------------------------- one provider's turn

  /** What happens to one provider: loading its pack, whether a required input is missing,
      the run of the pack (whether it needs a human gate), and recording the result. */
  datatype PackCalls = PackCalls(load: Fault, missingInput: bool, run: Outcome<bool>, record: Fault) {
    predicate Works() { load.Fine? && run.Returned? && record.Fine? }
    predicate Gates() { !missingInput && run == Returned(true) }
  }

  datatype Setting = Setting(controlRoom: bool, hasDomains: bool, allowIncomplete: bool, limit: int, rounds: seq<Round>)
  {
    /** Approval is asked for in the control room, when there are domains. */
    predicate Asks() { controlRoom && hasDomains }

    function Wait(): Wait { WaitOf(rounds, true, limit) }
  }

  datatype Step = Ran(provider: string, approved: bool, gated: bool) | Skipped(provider: string)

  datatype Ending = Finished | InputMissing | NotApproved | Waiting | Broken(fault: Fault)

  predicate IsGated(step: Step) { step.Ran? && step.gated }

  /** A setup with the approvals it starts with. */
  datatype Start = Start(setting: Setting, args: bool, context: bool) {
    predicate Given() { args || context }

    /** A DNS provider may be set up. */
    predicate Cleared() { Given() || !setting.Asks() || setting.Wait().Approved? }

    /** Approval is in place once a DNS provider had its turn. */
    predicate ContextAfter(dns: bool) { context || (dns && (args || (setting.Asks() && setting.Wait().Approved?))) }

    predicate ArgsAfter(dns: bool) {
      || args
      || (&& dns && !context && setting.Asks()
          && (setting.Wait().Approved? || (setting.Wait().Failed? && setting.Wait().approved)))
    }

    /** The ending of a wait that does not clear DNS. */
    function WaitEnd(): Ending {
      match setting.Wait()
      case Approved => Finished
      case ApprovalRequired => NotApproved
      case StillWaiting => Waiting
      case Failed(fault, _) => Broken(fault)
    }

    /** How a provider's turn ends. */
    function TurnEnd(provider: string, call: PackCalls): Ending {
      if IsDns(provider) && !Cleared() then WaitEnd()
      else if !call.load.Fine? then Broken(call.load)
      else if call.missingInput then if setting.allowIncomplete then Finished else InputMissing
      else if call.run.Raised? then Broken(call.run.fault)
      else if !call.record.Fine? then Broken(call.record)
      else Finished
    }

    /** What a provider's turn adds to the steps: a DNS pack runs approved exactly when approval
        was given beforehand or was asked for and given. */
    function TurnStep(provider: string, call: PackCalls): Option<Step> {
      if (IsDns(provider) && !Cleared()) || !call.load.Fine? then None
      else if call.missingInput then if setting.allowIncomplete then Some(Skipped(provider)) else None
      else if call.run.Raised? then None
      else Some(Ran(provider, ContextAfter(IsDns(provider)), call.run.value))
    }

    /** The next provider gets its turn. */
    predicate PassesOn(provider: string, call: PackCalls) { TurnEnd(provider, call).Finished? && !call.Gates() }
  }

  // ------------------------------------------------------- the whole setup

  /** The first turn from `k` on after which no other follows. */
  function Halt(order: seq<string>, start: Start, calls: string -> PackCalls, k: nat): (halt: nat)
    requires k <= |order|
    ensures k <= halt <= |order|
    ensures forall j :: k <= j < halt ==> start.PassesOn(order[j], calls(order[j]))
    ensures halt < |order| ==> !start.PassesOn(order[halt], calls(order[halt]))
    decreases |order| - k
  {
    if k == |order| || !start.PassesOn(order[k], calls(order[k])) then k else Halt(order, start, calls, k + 1)
  }

  /** What the setup leaves: the step of every provider up to the one whose turn was the last. */
  ghost predicate Follows(steps: seq<Step>, order: seq<string>, start: Start, calls: string -> PackCalls) {
    var halt := Halt(order, start, calls, 0);
    && (|steps| == halt
        || (|steps| == halt + 1 && halt < |order| && start.TurnStep(order[halt], calls(order[halt])).Some?))
    && (|steps| == halt && halt < |order| ==> start.TurnStep(order[halt], calls(order[halt])).None?)
    && forall i :: 0 <= i < |steps| ==> start.TurnStep(order[i], calls(order[i])) == Some(steps[i])
  }

  /** A pack ran. */
  ghost predicate SomeRan(steps: seq<Step>) { exists i :: 0 <= i < |steps| && steps[i].Ran? }

  /** How it ends: as the last turn does, or with the fault of writing an empty list of
      strategies when no pack ran. */
  ghost function SetupEnd(steps: seq<Step>, order: seq<string>, start: Start, calls: string -> PackCalls,
                          artifact: Fault): Ending
  {
    var halt := Halt(order, start, calls, 0);
    if halt < |order| && !start.TurnEnd(order[halt], calls(order[halt])).Finished? then
      start.TurnEnd(order[halt], calls(order[halt]))
    else if !SomeRan(steps) && !artifact.Fine? then Broken(artifact)
    else Finished
  }

  ghost predicate NoGateBefore(order: seq<string>, calls: string -> PackCalls, j: nat)
    requires j <= |order|
  {
    forall i :: 0 <= i < j ==> !calls(order[i]).Gates()
  }

  /** No call fails, no input that is needed is missing, and approval is given or not asked for. */
  ghost predicate Undisturbed(order: seq<string>, start: Start, calls: string -> PackCalls) {
    && (forall p :: p in order ==> calls(p).Works() && (calls(p).missingInput ==> start.setting.allowIncomplete))
    && start.Cleared()
  }

  /** The pack of the provider fails to load or to run, or the wait before it fails. */
  predicate BreaksBefore(fault: Fault, provider: string, start: Start, call: PackCalls) {
    if IsDns(provider) && !start.Cleared() then start.setting.Wait().Failed? && fault == start.setting.Wait().fault
    else if !call.load.Fine? then fault == call.load
    else !call.missingInput && call.run == Raised(fault)
  }

  /** Recording what the pack did fails. */
  predicate BreaksAfter(fault: Fault, step: Step, call: PackCalls) {
    step.Ran? && !fault.Fine? && fault == call.record
  }

  /** What each ending says of the provider whose turn it was, and when there is none but the
      good one. */
  ghost predicate Explained(r: Ending, steps: seq<Step>, order: seq<string>, start: Start, calls: string -> PackCalls,
      artifact: Fault)
  {
    // refused or waiting: a DNS provider's turn, and the wait says so
    && (r.NotApproved? || r.Waiting? ==>
          && |steps| < |order| && IsDns(order[|steps|]) && start.setting.Asks() && !start.Given()
          && start.setting.Wait() == if r.NotApproved? then ApprovalRequired else StillWaiting)
    && (r.InputMissing? ==>
          |steps| < |order| && calls(order[|steps|]).missingInput && !start.setting.allowIncomplete)
    // broken: by the call of the provider whose turn it is, or by the artifact
    && (r.Broken? ==>
          || (|steps| < |order| && BreaksBefore(r.fault, order[|steps|], start, calls(order[|steps|])))
          || (steps != [] && BreaksAfter(r.fault, Last(steps), calls(Last(steps).provider)))
          || (!SomeRan(steps) && !r.fault.Fine? && r.fault == artifact))
    // nothing follows a human gate, and otherwise every provider has its turn
    && (r.Finished? ==> |steps| == |order| || (steps != [] && IsGated(Last(steps))))
    // it finishes exactly when every turn up to the first gate does
    && (r.Finished? <==>
          && (forall j :: 0 <= j < |order| && NoGateBefore(order, calls, j) ==>
                start.TurnEnd(order[j], calls(order[j])).Finished?)
          && (SomeRan(steps) || artifact.Fine?))
    && (Undisturbed(order, start, calls) && artifact.Fine? ==> r.Finished?)
  }

  lemma EndingsExplained(r: Ending, steps: seq<Step>, order: seq<string>, start: Start, calls: string -> PackCalls,
                         artifact: Fault)
    requires Follows(steps, order, start, calls) && r == SetupEnd(steps, order, start, calls, artifact)
    ensures forall i :: 0 <= i < |steps| && IsGated(steps[i]) ==> i == |steps| - 1
    ensures Explained(r, steps, order, start, calls, artifact)
  {
    hide WaitOf;
    var halt := Halt(order, start, calls, 0);
    assert NoGateBefore(order, calls, halt);
    forall i | 0 <= i < |steps| && i < halt ensures !IsGated(steps[i]) {
      assert start.PassesOn(order[i], calls(order[i]));
    }
  }

  /** In steps that follow the order every provider has at most one turn, and a DNS provider
      has its turn only after all others had theirs without needing a human gate. */
  lemma DnsWaitsForTheOthers(services: seq<string>, steps: seq<Step>, start: Start, calls: string -> PackCalls)
    requires Follows(steps, SetupOrder(Providers(services, start.setting.hasDomains)), start, calls)
    ensures forall i, j :: 0 <= i < j < |steps| ==> steps[i].provider != steps[j].provider
    ensures forall i | 0 <= i < |steps| && IsDns(steps[i].provider) ::
              forall p :: p in Providers(services, start.setting.hasDomains) && !IsDns(p) ==> HadItsTurn(steps, i, p)
  {
    hide Providers, SetupOrder, IsDns, WaitOf;
    var providers := Providers(services, start.setting.hasDomains);
    var order := SetupOrder(providers);
    OrderIsAListing(providers);
    forall i | 0 <= i < |steps| ensures steps[i].provider == order[i] {
      assert start.TurnStep(order[i], calls(order[i])) == Some(steps[i]);
    }
    forall i, p | 0 <= i < |steps| && IsDns(steps[i].provider) && p in providers && !IsDns(p)
      ensures HadItsTurn(steps, i, p)
    {
      assert p in multiset(order);
      var j :| 0 <= j < |order| && order[j] == p;
      assert j < i;
      assert start.PassesOn(order[j], calls(order[j]));
      assert steps[j].provider == p && !IsGated(steps[j]);
    }
  }

  ghost predicate HadItsTurn(steps: seq<Step>, i: nat, provider: string)
    requires i <= |steps|
  {
    exists j :: 0 <= j < i && steps[j].provider == provider && !IsGated(steps[j])
  }

  function Last<T>(s: seq<T>): T
    requires s != []
  {
    s[|s| - 1]
  }

  /** One of the first `k` providers is a DNS provider. */
  ghost predicate DnsAmong(order: seq<string>, k: nat) { exists i :: 0 <= i < k && i < |order| && IsDns(order[i]) }

  lemma HaltIsFirst(order: seq<string>, start: Start, calls: string -> PackCalls, k: nat)
    requires k <= |order| && forall i :: 0 <= i < k ==> start.PassesOn(order[i], calls(order[i]))
    ensures k == |order| || !start.PassesOn(order[k], calls(order[k])) ==> Halt(order, start, calls, 0) == k
  {
  }

  /** The first providers had their turns, and each passed on. */
  ghost predicate Passed(steps: seq<Step>, order: seq<string>, start: Start, calls: string -> PackCalls) {
    && |steps| <= |order|
    && forall i :: 0 <= i < |steps| ==>
         && start.PassesOn(order[i], calls(order[i])) && start.TurnStep(order[i], calls(order[i])) == Some(steps[i])
  }

  lemma TurnTaken(before: seq<Step>, after: seq<Step>, step: Option<Step>, order: seq<string>, start: Start,
                  calls: string -> PackCalls)
    requires Passed(before, order, start, calls) && |before| < |order|
    requires step == start.TurnStep(order[|before|], calls(order[|before|]))
    requires after == before + (if step.Some? then [step.value] else [])
    ensures var k := |before|; var end := start.TurnEnd(order[k], calls(order[k]));
            && (end.Finished? ==> step.Some?)
            && if end.Finished? && !IsGated(step.value) then Passed(after, order, start, calls) && |after| == k + 1
               else Halt(order, start, calls, 0) == k && Follows(after, order, start, calls)
  {
    hide WaitOf, IsDns;
    HaltIsFirst(order, start, calls, |before|);
  }

  lemma StartOut(order: seq<string>, start: Start, calls: string -> PackCalls)
    ensures Passed([], order, start, calls) && !DnsAmong(order, 0)
    ensures start.context == start.ContextAfter(false) && start.args == start.ArgsAfter(false)
  {
  }

  lemma ClearedBy(start: Start, provider: string, call: PackCalls)
    ensures IsDns(provider) && start.TurnEnd(provider, call).Finished? ==> start.Cleared()
  {
    hide WaitOf, IsDns;
  }

  lemma AllTaken(steps: seq<Step>, order: seq<string>, start: Start, calls: string -> PackCalls)
    requires Passed(steps, order, start, calls) && |steps| == |order|
    ensures Halt(order, start, calls, 0) == |order| && Follows(steps, order, start, calls)
    ensures DnsAmong(order, |order| + 1) == DnsAmong(order, |order|)
  {
    hide IsDns;
    HaltIsFirst(order, start, calls, |order|);
  }

  lemma DnsOneMore(order: seq<string>, k: nat)
    requires k < |order|
    ensures DnsAmong(order, k + 1) <==> DnsAmong(order, k) || IsDns(order[k])
  {
    hide IsDns;
  }

  /** A turn is the same whether an earlier DNS provider's turn has settled the approval or not. */
  lemma SameTurn(start: Start, now: Start, dns: bool, provider: string, call: PackCalls)
    requires now.setting == start.setting && (dns ==> start.Cleared() && IsDns(provider))
    requires now.context == start.ContextAfter(dns) && now.args == start.ArgsAfter(dns)
    ensures now.TurnEnd(provider, call) == start.TurnEnd(provider, call)
    ensures now.TurnStep(provider, call) == start.TurnStep(provider, call)
    ensures now.ContextAfter(IsDns(provider)) == start.ContextAfter(dns || IsDns(provider))
    ensures now.ArgsAfter(IsDns(provider)) == start.ArgsAfter(dns || IsDns(provider))
  {
    hide WaitOf, IsDns;
  }

  // ------------------------------------------------------- the setup, told plainly

  /** The steps name wanted providers, each at most once and in their places; a step says what
      the calls for its provider made of it, and a DNS pack ran approved exactly when approval
      was given beforehand or was asked for in the control room and given there. */
  ghost predicate PlainSteps(steps: seq<Step>, services: seq<string>, setting: Setting, calls: string -> PackCalls,
      args: bool, context: bool)
  {
    && (forall i :: 0 <= i < |steps| ==> Wanted(steps[i].provider, services, setting.hasDomains))
    && (forall i, j :: 0 <= i < j < |steps| ==>
          && steps[i].provider != steps[j].provider
          && (|| Place(steps[i].provider) < Place(steps[j].provider)
              || (Place(steps[i].provider) == Place(steps[j].provider)
                  && StringLe(steps[i].provider, steps[j].provider)))
          && (steps[i].Ran? ==> !steps[i].gated))
    && (forall i :: 0 <= i < |steps| ==> PlainStep(steps[i], setting, calls(steps[i].provider), args, context))
  }

  predicate PlainStep(step: Step, setting: Setting, call: PackCalls, args: bool, context: bool) {
    var dns := step.provider == "cloudflare" || step.provider == "dns";
    && call.load.Fine?
    && (step.Skipped? <==> call.missingInput)
    && (step.Skipped? ==> setting.allowIncomplete)
    && (step.Ran? ==>
          && call.run == Returned(step.gated)
          && (step.approved <==> context || (dns && (args || (setting.controlRoom && setting.hasDomains)))))
    && (dns && !args && !context && setting.controlRoom && setting.hasDomains ==> setting.Wait().Approved?)
  }

  /** Nothing goes wrong in a provider's turn. */
  predicate PlainTurn(provider: string, setting: Setting, call: PackCalls, args: bool, context: bool) {
    && call.load.Fine?
    && (if call.missingInput then setting.allowIncomplete else call.run.Returned? && call.record.Fine?)
    && (provider == "cloudflare" || provider == "dns" ==>
          args || context || !setting.controlRoom || !setting.hasDomains || setting.Wait().Approved?)
  }

  /** A setup that finishes without a human gate has set up, or skipped, every provider that is
      wanted; and where no pack needs a gate it finishes exactly when nothing goes wrong in any
      turn. */
  ghost predicate PlainEnding(r: Ending, steps: seq<Step>, services: seq<string>, setting: Setting,
      calls: string -> PackCalls, artifact: Fault, args: bool, context: bool)
  {
    && (r.Finished? && (forall i :: 0 <= i < |steps| && steps[i].Ran? ==> !steps[i].gated) ==>
          forall p :: Wanted(p, services, setting.hasDomains) ==> HasStep(steps, p))
    && ((forall p :: Wanted(p, services, setting.hasDomains) && !calls(p).missingInput ==>
           calls(p).run != Returned(true)) ==>
          (r.Finished? <==>
            && (forall p :: Wanted(p, services, setting.hasDomains) ==>
                  PlainTurn(p, setting, calls(p), args, context))
            && ((exists i :: 0 <= i < |steps| && steps[i].Ran?) || artifact.Fine?)))
  }

  ghost predicate HasStep(steps: seq<Step>, provider: string) {
    exists i :: 0 <= i < |steps| && steps[i].provider == provider
  }

  lemma ToldPlainly(r: Ending, steps: seq<Step>, services: seq<string>, start: Start, calls: string -> PackCalls,
      artifact: Fault)
    requires var order := SetupOrder(Providers(services, start.setting.hasDomains));
             Follows(steps, order, start, calls) && r == SetupEnd(steps, order, start, calls, artifact)
    ensures PlainSteps(steps, services, start.setting, calls, start.args, start.context)
    ensures PlainEnding(r, steps, services, start.setting, calls, artifact, start.args, start.context)
  {
    hide Providers, SetupOrder, WaitOf, StringLe, Wanted, Place;
    var providers := Providers(services, start.setting.hasDomains);
    var order := SetupOrder(providers);
    OrderIsAListing(providers);
    OrderByPlace(providers);
    forall p ensures p in order <==> Wanted(p, services, start.setting.hasDomains) {
      assert p in multiset(order) <==> p in multiset(providers);
    }
    EndingsExplained(r, steps, order, start, calls, artifact);
    PlainStepsFollow(steps, services, order, start, calls);
    PlainEndingFollows(r, steps, services, order, start, calls, artifact);
  }

  lemma PlainStepsFollow(steps: seq<Step>, services: seq<string>, order: seq<string>, start: Start,
      calls: string -> PackCalls)
    requires Follows(steps, order, start, calls) && Distinct(order)
    requires forall p :: p in order <==> Wanted(p, services, start.setting.hasDomains)
    requires forall i, j :: 0 <= i < j < |order| ==>
      || Place(order[i]) < Place(order[j])
      || (Place(order[i]) == Place(order[j]) && StringLe(order[i], order[j]))
    requires forall i :: 0 <= i < |steps| && IsGated(steps[i]) ==> i == |steps| - 1
    ensures PlainSteps(steps, services, start.setting, calls, start.args, start.context)
  {
    hide Wanted, Place, StringLe, WaitOf;
    forall i | 0 <= i < |steps|
      ensures steps[i].provider == order[i] && order[i] in order
      ensures PlainStep(steps[i], start.setting, calls(order[i]), start.args, start.context)
    {
      assert start.TurnStep(order[i], calls(order[i])) == Some(steps[i]);
    }
    hide PlainStep, Follows, Halt;
  }

  lemma PlainEndingFollows(r: Ending, steps: seq<Step>, services: seq<string>, order: seq<string>, start: Start,
      calls: string -> PackCalls, artifact: Fault)
    requires Follows(steps, order, start, calls) && r == SetupEnd(steps, order, start, calls, artifact)
    requires forall p :: p in order <==> Wanted(p, services, start.setting.hasDomains)
    ensures PlainEnding(r, steps, services, start.setting, calls, artifact, start.args, start.context)
  {
    EndingsExplained(r, steps, order, start, calls, artifact);
    forall i | 0 <= i < |steps| ensures steps[i].provider == order[i] {
      assert start.TurnStep(order[i], calls(order[i])) == Some(steps[i]);
    }
    forall i | 0 <= i < |order|
      ensures PlainTurn(order[i], start.setting, calls(order[i]), start.args, start.context)
         <==> start.TurnEnd(order[i], calls(order[i])).Finished?
      ensures order[i] in order
    {
      TurnsEndPlainly(order[i], start, calls(order[i]));
    }
    hide Wanted, WaitOf, Follows, SetupEnd, PlainTurn, Start.TurnEnd, Start.TurnStep;
  }

  lemma TurnsEndPlainly(provider: string, start: Start, call: PackCalls)
    ensures PlainTurn(provider, start.setting, call, start.args, start.context)
       <==> start.TurnEnd(provider, call).Finished?
  {
    hide WaitOf;
  }

  class Setup {
    var argsApproved: bool
    var contextApproved: bool
    /** Packs that ran and providers that were skipped, in order. */
    var steps: seq<Step>

    constructor (argsApproved: bool, contextApproved: bool)
      ensures this.argsApproved == argsApproved && this.contextApproved == contextApproved && steps == []
    {
      this.argsApproved, this.contextApproved, this.steps := argsApproved, contextApproved, [];
    }

    function From(setting: Setting): Start
      reads this
    {
      Start(setting, argsApproved, contextApproved)
    }

    /** `_maybe_await_control_room_dns_approval`. */
    method MaybeAwaitApproval(setting: Setting) returns (r: Ending)
      modifies this`argsApproved, this`contextApproved
      // nothing is asked where approval was given, or outside the control room
      ensures old(argsApproved || contextApproved) || !setting.Asks() ==> r.Finished?
      // otherwise the wait decides how it ends
      ensures !old(argsApproved || contextApproved) && setting.Asks() ==>
        && (r.Finished? <==> setting.Wait().Approved?)
        && (r.NotApproved? <==> setting.Wait().ApprovalRequired?)
        && (r.Waiting? <==> WentBy(setting.rounds, true, setting.limit, |setting.rounds|))
        && (r.Broken? <==> setting.Wait().Failed?)
        && (r.Broken? ==> r.fault == setting.Wait().fault && !r.fault.Fine?)
      ensures !r.InputMissing?
      // what is approved afterwards, however it ends
      ensures contextApproved <==> old(From(setting)).ContextAfter(true)
      ensures argsApproved <==> old(From(setting)).ArgsAfter(true)
    {
      if contextApproved || argsApproved {
        contextApproved := true;
        return Finished;
      }
      if !setting.controlRoom || !setting.hasDomains {
        return Finished;
      }
      var wait, attempts := AwaitDnsApproval(true, setting.limit, setting.rounds);
      match wait
      case Approved =>
        argsApproved, contextApproved := true, true;
        return Finished;
      case ApprovalRequired => return NotApproved;
      case StillWaiting => return Waiting;
      case Failed(fault, approved) =>
        argsApproved := approved;
        return Broken(fault);
    }

    /** One provider's turn. */
    method Visit(provider: string, setting: Setting, call: PackCalls) returns (r: Ending, step: Option<Step>)
      modifies this
      ensures r == old(From(setting)).TurnEnd(provider, call) && step == old(From(setting)).TurnStep(provider, call)
      ensures steps == old(steps) + (if step.Some? then [step.value] else [])
      ensures contextApproved <==> old(From(setting)).ContextAfter(IsDns(provider))
      ensures argsApproved <==> old(From(setting)).ArgsAfter(IsDns(provider))
    {
      hide WaitOf;
      if IsDns(provider) {
        r := MaybeAwaitApproval(setting);
        if !r.Finished? {
          return r, None;
        }
      }
      if !call.load.Fine? {
        return Broken(call.load), None;
      }
      if call.missingInput {
        if !setting.allowIncomplete {
          return InputMissing, None;
        }
        step := Some(Skipped(provider));
        steps := steps + [step.value];
        return Finished, step;
      }
      if call.run.Raised? {
        return Broken(call.run.fault), None;
      }
      step := Some(Ran(provider, contextApproved, call.run.value));
      steps := steps + [step.value];
      if !call.record.Fine? {
        return Broken(call.record), step;
      }
      r := Finished;
    }

    /** `_run_manifest_provider_pack_setup`; `artifact` is the outcome of writing the empty list
        of strategies. */
    method RunManifest(services: seq<string>, setting: Setting, calls: string -> PackCalls, artifact: Fault)
      returns (r: Ending)
      requires steps == []
      modifies this
      ensures var order, start := SetupOrder(Providers(services, setting.hasDomains)), old(From(setting));
              var turns := Halt(order, start, calls, 0) + 1;
              // the steps, the ending and the approvals are settled
              && Follows(steps, order, start, calls) && r == SetupEnd(steps, order, start, calls, artifact)
              && (contextApproved <==> start.ContextAfter(DnsAmong(order, turns)))
              && (argsApproved <==> start.ArgsAfter(DnsAmong(order, turns)))
              // told plainly: whose steps there are, in which places, and what is needed to finish
              && PlainSteps(steps, services, setting, calls, start.args, start.context)
              && PlainEnding(r, steps, services, setting, calls, artifact, start.args, start.context)
              // and every ending is explained
              && Explained(r, steps, order, start, calls, artifact)
    {
      hide SetupOrder, Providers, IsDns, WaitOf, Explained, PlainSteps, PlainEnding;
      var order := SetupOrder(Providers(services, setting.hasDomains));
      OrderIsAListing(Providers(services, setting.hasDomains));
      ghost var start := From(setting);
      r := Walk(order, setting, calls);
      if r.Finished? && (forall i :: 0 <= i < |steps| ==> steps[i].Skipped?) {
        r := if artifact.Fine? then Finished else Broken(artifact);
      }
      EndingsExplained(r, steps, order, start, calls, artifact);
      ToldPlainly(r, steps, services, start, calls, artifact);
    }

    /** The loop over the providers. */
    method Walk(order: seq<string>, setting: Setting, calls: string -> PackCalls) returns (r: Ending)
      requires steps == []
      requires forall i, j :: 0 <= i < j < |order| && IsDns(order[i]) ==> IsDns(order[j])
      modifies this
      ensures var start := old(From(setting)); var halt := Halt(order, start, calls, 0);
              && Follows(steps, order, start, calls)
              && r == (if halt < |order| then start.TurnEnd(order[halt], calls(order[halt])) else Finished)
              && (contextApproved <==> start.ContextAfter(DnsAmong(order, halt + 1)))
              && (argsApproved <==> start.ArgsAfter(DnsAmong(order, halt + 1)))
    {
      hide IsDns, WaitOf, Halt, Follows, Passed, Start.TurnEnd, Start.TurnStep, Start.ContextAfter, Start.ArgsAfter,
        Start.Cleared, IsGated;
      ghost var start := From(setting);
      StartOut(order, start, calls);
      for k := 0 to |order|
        invariant |steps| == k && Passed(steps, order, start, calls)
        invariant contextApproved <==> start.ContextAfter(DnsAmong(order, k))
        invariant argsApproved <==> start.ArgsAfter(DnsAmong(order, k))
        invariant DnsAmong(order, k) ==> start.Cleared()
      {
        var step;
        SameTurn(start, From(setting), DnsAmong(order, k), order[k], calls(order[k]));
        DnsOneMore(order, k);
        ghost var before := steps;
        r, step := Visit(order[k], setting, calls(order[k]));
        TurnTaken(before, steps, step, order, start, calls);
        ClearedBy(start, order[k], calls(order[k]));
        if !r.Finished? {
          return;
        }
        if IsGated(step.value) {
          return;
        }
      }
      AllTaken(steps, order, start, calls);
      r := Finished;
    }
  }
}
