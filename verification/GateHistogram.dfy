/** The provider-gate and wake-event sections of a run record (detonation/preflight.py):
    totals and counts against the records, and captures against wake events. */
module GateHistogram {
  import opened Json
  import opened Outcomes
  import opened Text

  /** Key tables that other modules own, the detector of credential text, and Python's `str`
      of what is not text. */
  datatype Tables = Tables(
    gatesKeys: set<string>, gateKeys: set<string>, wakeKeys: set<string>, eventKeys: set<string>,
    isCredential: string -> bool, show: Value -> string)

  datatype Finding =
    | UnexpectedFields | MissingPart | BadTotal | BadProvider(index: nat) | NoObject(index: nat) | BadShape(index: nat)
    | BadId(index: nat) | RepeatedId(index: nat) | BadStatus(index: nat) | BadGateProvider(index: nat)
    | BadEventName(index: nat) | BadGateId(index: nat) | RepeatedEvent(index: nat)
    | ProvidersDiffer | BadCountKey | BadCount | NamesDiffer | CountDiffers | NoWakeEvent(gate: string, target: string)

  // ------------------------------------------------------- records

  predicate IsTrimmed(s: string) { Strip(s) == s }

  predicate CleanText(v: Value) { v.Str? && v.s != "" && IsTrimmed(v.s) }

  /** The text a record holds under a key, empty when it holds none. */
  function TextAt(record: Value, key: string): string {
    if record.Obj? && key in record.fields && record.fields[key].Str? then record.fields[key].s else ""
  }

  function CountOf(records: seq<Value>, key: string, name: string): nat {
    if records == [] then 0
    else
      CountOf(records[..|records| - 1], key, name) + (if TextAt(records[|records| - 1], key) == name then 1 else 0)
  }

  function NamesOf(records: seq<Value>, key: string): (r: set<string>)
    ensures forall n :: n in r <==> exists i :: 0 <= i < |records| && TextAt(records[i], key) == n
  {
    set i | 0 <= i < |records| :: TextAt(records[i], key)
  }

  predicate PublicText(t: Tables, v: Value) { v.Str? && IsTrimmed(v.s) && !t.isCredential(v.s) }

  predicate PublicList(t: Tables, v: Value) { v.Arr? && forall i :: 0 <= i < |v.items| ==> PublicText(t, v.items[i]) }

  predicate Counter(v: Value) { v.Int? && v.n >= 0 }

  const GATE_TEXTS: set<string> := {
    "classification", "target", "reason", "resume_url", "last_opened_url", "next_action", "resume_hint",
    "last_wake_event", "last_wake_event_id"}
  const GATE_LISTS: set<string> := {"captured_targets", "follow_steps", "success_criteria", "avoid_steps"}
  const GATE_TIMES: set<string> := {"last_opened_at", "last_wake_event_at", "created_at", "updated_at"}

  /** `_provider_gate_record_shape_failures` finds nothing. */
  predicate GateShapeOk(t: Tables, gate: map<string, Value>) {
    && gate.Keys <= t.gateKeys
    && (forall k :: k in GATE_TEXTS && k in gate && gate[k] != Null ==> PublicText(t, gate[k]))
    && (forall k :: k in GATE_LISTS && k in gate && gate[k] != Null ==> PublicList(t, gate[k]))
    && Counter(Get(gate, "attempts", Int(0)))
    && forall k :: k in GATE_TIMES && k in gate ==> Counter(gate[k])
  }

  const EVENT_TEXTS: set<string> := {
    "schema_version", "id", "event", "gate_id", "provider", "classification", "status", "target"}

  /** `_wake_event_record_shape_failures` finds nothing. */
  predicate EventShapeOk(t: Tables, event: map<string, Value>) {
    && event.Keys <= t.eventKeys
    && (forall k :: k in EVENT_TEXTS && k in event ==>
          event[k].Str? && IsTrimmed(event[k].s) && (event[k].s != "" ==> !t.isCredential(event[k].s)))
    && Truthy(Get(event, "schema_version", Null)) && Truthy(Get(event, "event", Null))
      && Truthy(Get(event, "gate_id", Null))
    && Counter(Get(event, "target_count", Int(0)))
    && PublicList(t, Get(event, "captured_targets", Arr([])))
    && Counter(Get(event, "created_at", Int(0)))
  }

  // ------------------------------------------------------- gates

  predicate GateOk(t: Tables, v: Value) {
    && v.Obj? && GateShapeOk(t, v.fields)
    && CleanText(Get(v.fields, "id", Str(""))) && CleanText(Get(v.fields, "status", Str("")))
    && CleanText(Get(v.fields, "provider", Str("")))
  }

  /** Key by key, what a gate record may hold. */
  predicate GateMemberFits(t: Tables, key: string, v: Value) {
    match key
    case "id" => CleanText(v)
    case "status" => CleanText(v)
    case "provider" => CleanText(v)
    case "attempts" => IsCount(v)
    case "last_opened_at" => IsCount(v)
    case "last_wake_event_at" => IsCount(v)
    case "created_at" => IsCount(v)
    case "updated_at" => IsCount(v)
    case "captured_targets" => v == Null || HoldsPublicTexts(t, v)
    case "follow_steps" => v == Null || HoldsPublicTexts(t, v)
    case "success_criteria" => v == Null || HoldsPublicTexts(t, v)
    case "avoid_steps" => v == Null || HoldsPublicTexts(t, v)
    case "classification" => v == Null || HoldsPublicText(t, v)
    case "target" => v == Null || HoldsPublicText(t, v)
    case "reason" => v == Null || HoldsPublicText(t, v)
    case "resume_url" => v == Null || HoldsPublicText(t, v)
    case "last_opened_url" => v == Null || HoldsPublicText(t, v)
    case "next_action" => v == Null || HoldsPublicText(t, v)
    case "resume_hint" => v == Null || HoldsPublicText(t, v)
    case "last_wake_event" => v == Null || HoldsPublicText(t, v)
    case "last_wake_event_id" => v == Null || HoldsPublicText(t, v)
    case _ => true
  }

  predicate IsCount(v: Value) { v.Int? && v.n >= 0 }
  predicate HoldsPublicText(t: Tables, v: Value) { v.Str? && Strip(v.s) == v.s && !t.isCredential(v.s) }

  predicate HoldsPublicTexts(t: Tables, v: Value) {
    v.Arr? && forall x :: x in v.items ==> HoldsPublicText(t, x)
  }

  lemma ListsOfTexts(t: Tables, v: Value)
    ensures PublicList(t, v) <==> HoldsPublicTexts(t, v)
  {
    if v.Arr? && HoldsPublicTexts(t, v) {
      forall i | 0 <= i < |v.items| ensures PublicText(t, v.items[i]) {
        assert v.items[i] in v.items;
      }
    }
  }

  /** A gate record passes exactly when it is an object of known keys that names itself, its
      status and its provider, and holds nothing under any key that does not fit it. */
  lemma GateByKeys(t: Tables, v: Value)
    ensures GateOk(t, v) <==>
      && v.Obj? && v.fields.Keys <= t.gateKeys
      && "id" in v.fields && "status" in v.fields && "provider" in v.fields
      && forall key :: key in v.fields ==> GateMemberFits(t, key, v.fields[key])
  {
    if v.Obj? {
      forall x: Value ensures PublicList(t, x) <==> HoldsPublicTexts(t, x) {
        ListsOfTexts(t, x);
      }
      hide PublicList, HoldsPublicTexts, IsTrimmed, CleanText, PublicText, HoldsPublicText, GateMemberFits;
      if GateOk(t, v) {
        forall key | key in v.fields ensures GateMemberFits(t, key, v.fields[key]) {
          GateKeyFits(t, v.fields, key);
        }
      } else {
        if && v.fields.Keys <= t.gateKeys && "id" in v.fields && "status" in v.fields && "provider" in v.fields
           && forall key :: key in v.fields ==> GateMemberFits(t, key, v.fields[key]) {
          GateKeysSuffice(t, v.fields);
        }
      }
    }
  }

  lemma GateKeyFits(t: Tables, gate: map<string, Value>, key: string)
    requires GateOk(t, Obj(gate)) && key in gate
    ensures GateMemberFits(t, key, gate[key])
  {
    ListsOfTexts(t, gate[key]);
    hide PublicList, HoldsPublicTexts, CleanText;
  }

  lemma GateKeysSuffice(t: Tables, gate: map<string, Value>)
    requires gate.Keys <= t.gateKeys && "id" in gate && "status" in gate && "provider" in gate
    requires forall key :: key in gate ==> GateMemberFits(t, key, gate[key])
    ensures GateOk(t, Obj(gate))
  {
    GateTextsSuffice(t, gate);
    GateListsSuffice(t, gate);
    GateTimesSuffice(t, gate);
    assert GateMemberFits(t, "id", gate["id"]) && GateMemberFits(t, "status", gate["status"]);
    assert GateMemberFits(t, "provider", gate["provider"]);
    assert "attempts" in gate ==> GateMemberFits(t, "attempts", gate["attempts"]);
    hide GATE_TEXTS, GATE_LISTS, GATE_TIMES, PublicText, PublicList, HoldsPublicTexts, HoldsPublicText, CleanText;
  }

  lemma GateTextsSuffice(t: Tables, gate: map<string, Value>)
    requires forall key :: key in gate ==> GateMemberFits(t, key, gate[key])
    ensures forall k :: k in GATE_TEXTS && k in gate && gate[k] != Null ==> PublicText(t, gate[k])
  {
    hide Strip, HoldsPublicTexts;
    forall k | k in GATE_TEXTS && k in gate && gate[k] != Null ensures PublicText(t, gate[k]) {
      assert GateMemberFits(t, k, gate[k]);
    }
  }

  lemma GateListsSuffice(t: Tables, gate: map<string, Value>)
    requires forall key :: key in gate ==> GateMemberFits(t, key, gate[key])
    ensures forall k :: k in GATE_LISTS && k in gate && gate[k] != Null ==> PublicList(t, gate[k])
  {
    hide PublicList, HoldsPublicTexts, HoldsPublicText, CleanText;
    forall k | k in GATE_LISTS && k in gate && gate[k] != Null ensures PublicList(t, gate[k]) {
      assert GateMemberFits(t, k, gate[k]);
      ListsOfTexts(t, gate[k]);
    }
  }

  lemma GateTimesSuffice(t: Tables, gate: map<string, Value>)
    requires forall key :: key in gate ==> GateMemberFits(t, key, gate[key])
    ensures forall k :: k in GATE_TIMES && k in gate ==> Counter(gate[k])
  {
    hide HoldsPublicTexts, HoldsPublicText, CleanText;
    forall k | k in GATE_TIMES && k in gate ensures Counter(gate[k]) {
      assert GateMemberFits(t, k, gate[k]);
    }
  }

  ghost predicate GatesOk(t: Tables, records: seq<Value>) {
    && (forall i :: 0 <= i < |records| ==> GateOk(t, records[i]))
    && (forall i, j :: 0 <= i < j < |records| ==> TextAt(records[i], "id") != TextAt(records[j], "id"))
  }

  /** A table of counts that is exactly the histogram of the records by `key`. */
  ghost predicate IsHistogram(counts: map<string, Value>, records: seq<Value>, key: string) {
    && counts.Keys == NamesOf(records, key)
    && forall name :: name in counts ==> counts[name] == Int(CountOf(records, key, name))
  }

  function Items(v: Value): seq<Value> { if v.Arr? then v.items else [] }
  function Fields(v: Value): map<string, Value> { if v.Obj? then v.fields else map[] }

  predicate ProviderOk(t: Tables, v: Value) { CleanText(v) && !t.isCredential(v.s) }

  /** A provider-gate section without failures. */
  ghost predicate GateSectionExact(t: Tables, gates: map<string, Value>) {
    var records, statuses, providers := Get(gates, "records", Null), Get(gates, "statuses", Null),
      Get(gates, "providers", Null);
    && gates.Keys <= t.gatesKeys && records.Arr? && statuses.Obj? && providers.Arr?
    && Get(gates, "total", Null) == Int(|records.items|)
    && GatesOk(t, records.items)
    && (forall i :: 0 <= i < |providers.items| ==> ProviderOk(t, providers.items[i]))
    && (forall p :: Str(p) in providers.items <==> p in NamesOf(records.items, "provider"))
    && IsHistogram(statuses.fields, records.items, "status")
  }

  /** What the loop has collected. */
  ghost predicate Collected(records: seq<Value>, ids: set<string>, statuses: map<string, nat>, providers: set<string>) {
    && ids == NamesOf(records, "id") && providers == NamesOf(records, "provider")
      && Tallied(records, "status", statuses)
  }

  ghost predicate Tallied(records: seq<Value>, key: string, counts: map<string, nat>) {
    counts.Keys == NamesOf(records, key) && forall s :: s in counts ==> counts[s] == CountOf(records, key, s)
  }

  function Bump(counts: map<string, nat>, name: string): map<string, nat> {
    counts[name := (if name in counts then counts[name] else 0) + 1]
  }

  lemma BumpTallies(records: seq<Value>, i: nat, key: string, counts: map<string, nat>)
    requires i < |records| && Tallied(records[..i], key, counts)
    ensures Tallied(records[..i + 1], key, Bump(counts, TextAt(records[i], key)))
  {
    hide TextAt;
    CountsOneMore(records, i, key);
  }

  lemma CollectsOneMore(records: seq<Value>, i: nat, ids: set<string>, statuses: map<string, nat>,
      providers: set<string>)
    requires i < |records| && Collected(records[..i], ids, statuses, providers)
    ensures Collected(records[..i + 1], ids + {TextAt(records[i], "id")}, Bump(statuses, TextAt(records[i], "status")),
                      providers + {TextAt(records[i], "provider")})
  {
    hide TextAt, Bump, Tallied;
    BumpTallies(records, i, "status", statuses);
    CountsOneMore(records, i, "status");
  }

  lemma CleanIsText(record: Value, key: string)
    requires record.Obj? && CleanText(Get(record.fields, key, Str("")))
    ensures TextAt(record, key) == Get(record.fields, key, Str("")).s
  {
  }

  /** One round of the loop over the gates: what it collects, and whether it found fault. */
  method ScanGate(t: Tables, record: Value, index: nat, start: seq<Finding>, ids: set<string>,
      statuses: map<string, nat>, providers: set<string>)
    returns (failures: seq<Finding>, newIds: set<string>, newStatuses: map<string, nat>, newProviders: set<string>)
    ensures failures == [] <==> start == [] && GateOk(t, record) && TextAt(record, "id") !in ids
    ensures failures == [] ==>
      && newIds == ids + {TextAt(record, "id")} && newStatuses == Bump(statuses, TextAt(record, "status"))
      && newProviders == providers + {TextAt(record, "provider")}
  {
    hide GateShapeOk, IsTrimmed;
    failures, newIds, newStatuses, newProviders := start, ids, statuses, providers;
    if !record.Obj? {
      failures := Note(false, NoObject(index), failures);
      return;
    }
    var gate := record.fields;
    failures := Note(GateShapeOk(t, gate), BadShape(index), failures);
    var id, status, provider := Get(gate, "id", Str("")), Get(gate, "status", Str("")), Get(gate, "provider", Str(""));
    if !CleanText(id) {
      failures := Note(false, BadId(index), failures);
    } else if id.s in ids {
      CleanIsText(record, "id");
      failures := Note(false, RepeatedId(index), failures);
    } else {
      CleanIsText(record, "id");
      newIds := ids + {id.s};
    }
    if !CleanText(status) {
      failures := Note(false, BadStatus(index), failures);
    } else {
      CleanIsText(record, "status");
      newStatuses := Bump(statuses, status.s);
    }
    if !CleanText(provider) {
      failures := Note(false, BadGateProvider(index), failures);
    } else {
      CleanIsText(record, "provider");
      newProviders := providers + {provider.s};
    }
  }

  /** The loop over the gates. */
  method ScanGates(t: Tables, records: seq<Value>, start: seq<Finding>)
    returns (failures: seq<Finding>, statuses: map<string, nat>, providers: set<string>)
    ensures failures == [] <==> start == [] && GatesOk(t, records)
    ensures failures == [] ==> Tallied(records, "status", statuses) && providers == NamesOf(records, "provider")
  {
    hide Tallied, GateOk, TextAt, Bump;
    failures, statuses, providers := start, map[], {};
    var ids: set<string> := {};
    assert Collected([], ids, statuses, providers) by { NothingCollected(); }
    assert records[..0] == [];
    for i := 0 to |records|
      invariant failures == [] <==> start == [] && GatesOk(t, records[..i])
      invariant failures == [] ==> Collected(records[..i], ids, statuses, providers)
    {
      hide GatesOk, NamesOf;
      OneMoreGate(t, records, i);
      if failures == [] {
        CollectsOneMore(records, i, ids, statuses, providers);
      }
      failures, ids, statuses, providers := ScanGate(t, records[i], i, failures, ids, statuses, providers);
    }
    assert records[..|records|] == records;
  }

  lemma NothingCollected()
    ensures Collected([], {}, map[], {})
  {
  }

  lemma OneMoreGate(t: Tables, records: seq<Value>, i: nat)
    requires i < |records|
    ensures GatesOk(t, records[..i + 1]) <==>
            GatesOk(t, records[..i]) && GateOk(t, records[i])
              && TextAt(records[i], "id") !in NamesOf(records[..i], "id")
  {
    hide GateOk, TextAt;
    var more := records[..i + 1];
    assert more == records[..i] + [records[i]];
    if GatesOk(t, records[..i]) && GateOk(t, records[i]) && TextAt(records[i], "id") !in NamesOf(records[..i], "id") {
      forall a, b | 0 <= a < b < |more| ensures TextAt(more[a], "id") != TextAt(more[b], "id") {
        assert b < i ==> records[..i][a] == records[a] && records[..i][b] == records[b];
        assert records[..i][a] == records[a];
      }
    }
    if GatesOk(t, records[..i + 1]) {
      assert GateOk(t, records[..i + 1][i]);
      forall a | 0 <= a < i
        ensures TextAt(records[..i][a], "id") != TextAt(records[i], "id")
        ensures GateOk(t, records[..i][a])
      {
        assert records[..i + 1][a] == records[..i][a] && records[..i + 1][i] == records[i];
      }
      forall a, b | 0 <= a < b < i ensures TextAt(records[..i][a], "id") != TextAt(records[..i][b], "id") {
        assert records[..i + 1][a] == records[..i][a] && records[..i + 1][b] == records[..i][b];
      }
    }
  }

  lemma CountsOneMore(records: seq<Value>, i: nat, key: string)
    requires i < |records|
    ensures forall k :: NamesOf(records[..i + 1], k) == NamesOf(records[..i], k) + {TextAt(records[i], k)}
    ensures forall name :: CountOf(records[..i + 1], key, name) ==
              CountOf(records[..i], key, name) + (if TextAt(records[i], key) == name then 1 else 0)
    ensures forall name :: name !in NamesOf(records[..i], key) ==> CountOf(records[..i], key, name) == 0
  {
    hide TextAt;
    assert records[..i + 1][..i] == records[..i];
    forall name | name !in NamesOf(records[..i], key) ensures CountOf(records[..i], key, name) == 0 {
      UnusedNamesCountZero(records[..i], key, name);
    }
    forall k ensures NamesOf(records[..i + 1], k) == NamesOf(records[..i], k) + {TextAt(records[i], k)} {
      forall n ensures n in NamesOf(records[..i + 1], k) <==> n in NamesOf(records[..i], k) + {TextAt(records[i], k)} {
        if n in NamesOf(records[..i], k) {
          var a :| 0 <= a < i && TextAt(records[..i][a], k) == n;
          assert records[..i + 1][a] == records[..i][a];
        }
        if n in NamesOf(records[..i + 1], k) {
          var a :| 0 <= a < i + 1 && TextAt(records[..i + 1][a], k) == n;
          assert a < i ==> records[..i][a] == records[..i + 1][a];
        }
        assert records[..i + 1][i] == records[i];
      }
    }
  }

  lemma {:induction false} UnusedNamesCountZero(records: seq<Value>, key: string, name: string)
    requires name !in NamesOf(records, key)
    ensures CountOf(records, key, name) == 0
  {
    hide TextAt;
    if records != [] {
      var most := records[..|records| - 1];
      forall n | n in NamesOf(most, key) ensures n in NamesOf(records, key) {
        var a :| 0 <= a < |most| && TextAt(most[a], key) == n;
        assert records[a] == most[a];
      }
      UnusedNamesCountZero(most, key, name);
    }
  }

  predicate CleanKeys(counts: map<string, Value>) { forall k :: k in counts ==> k != "" && IsTrimmed(k) }
  predicate IntegerCounts(counts: map<string, Value>) { forall k :: k in counts ==> counts[k].Int? }

  /** Every tallied name has its count in the table. */
  predicate CountsMatch(counts: map<string, Value>, actual: map<string, nat>) {
    forall name :: name in actual ==> name in counts && counts[name] == Int(actual[name])
  }

  /** `_provider_gates_preflight_failures`. */
  method ProviderGatesFailures(t: Tables, gates: map<string, Value>) returns (failures: seq<Finding>)
    ensures failures == [] <==> GateSectionExact(t, gates)
  {
    hide GatesOk, ProviderOk, CleanText, CleanKeys, IntegerCounts, Tallied, IsHistogram, CountsMatch;
    failures := Note(gates.Keys <= t.gatesKeys, UnexpectedFields, []);
    var records, statuses, providers := Get(gates, "records", Null), Get(gates, "statuses", Null),
      Get(gates, "providers", Null);
    failures := Note(records.Arr?, MissingPart, failures);
    failures := Note(statuses.Obj?, MissingPart, failures);
    failures := Note(providers.Arr?, MissingPart, failures);
    failures := Note(Get(gates, "total", Null) == Int(|Items(records)|), BadTotal, failures);
    for i := 0 to |Items(providers)|
      invariant failures == [] <==>
        && gates.Keys <= t.gatesKeys && records.Arr? && statuses.Obj? && providers.Arr?
        && Get(gates, "total", Null) == Int(|Items(records)|)
        && forall j :: 0 <= j < i ==> ProviderOk(t, Items(providers)[j])
    {
      failures := Note(ProviderOk(t, Items(providers)[i]), BadProvider(i), failures);
    }
    var actual, actualProviders;
    failures, actual, actualProviders := ScanGates(t, Items(records), failures);
    if failures == [] {
      ProvidersAsSet(t, Items(providers), actualProviders);
      ExactCounts(t, Fields(statuses), Items(records), actual);
    }
    failures := Note((set i | 0 <= i < |Items(providers)| :: TextOf(Items(providers)[i], t.show)) == actualProviders,
      ProvidersDiffer, failures);
    failures := Note(CleanKeys(Fields(statuses)), BadCountKey, failures);
    failures := Note(IntegerCounts(Fields(statuses)), BadCount, failures);
    failures := Note(Fields(statuses).Keys == actual.Keys, NamesDiffer, failures);
    failures := Note(CountsMatch(Fields(statuses), actual), CountDiffers, failures);
  }

  lemma StatusesAreTrimmed(t: Tables, records: seq<Value>)
    requires GatesOk(t, records)
    ensures forall name :: name in NamesOf(records, "status") ==> name != "" && IsTrimmed(name)
  {
    hide GateShapeOk, IsTrimmed;
    forall name | name in NamesOf(records, "status") ensures name != "" && IsTrimmed(name) {
      var i :| 0 <= i < |records| && TextAt(records[i], "status") == name;
      assert GateOk(t, records[i]);
      CleanIsText(records[i], "status");
    }
  }

  lemma ExactCounts(t: Tables, counts: map<string, Value>, records: seq<Value>, actual: map<string, nat>)
    requires GatesOk(t, records) && Tallied(records, "status", actual)
    ensures CleanKeys(counts) && IntegerCounts(counts) && counts.Keys == actual.Keys && CountsMatch(counts, actual) <==>
            IsHistogram(counts, records, "status")
  {
    hide GatesOk, CountOf, IsTrimmed;
    StatusesAreTrimmed(t, records);
  }

  lemma ProvidersAsSet(t: Tables, providers: seq<Value>, names: set<string>)
    requires forall i :: 0 <= i < |providers| ==> ProviderOk(t, providers[i])
    ensures (set i | 0 <= i < |providers| :: TextOf(providers[i], t.show)) == names <==>
            forall p :: Str(p) in providers <==> p in names
  {
    hide IsTrimmed;
    var texts := set i | 0 <= i < |providers| :: TextOf(providers[i], t.show);
    forall p ensures p in texts <==> Str(p) in providers {
      if p in texts {
        var i :| 0 <= i < |providers| && TextOf(providers[i], t.show) == p;
        assert ProviderOk(t, providers[i]);
        assert providers[i] == Str(p);
      }
      if Str(p) in providers {
        var i :| 0 <= i < |providers| && providers[i] == Str(p);
        assert TextOf(providers[i], t.show) == p;
      }
    }
  }

  // ------------------------------------------------------- wake events

  type Identity = (string, string, string)

  /** What makes an event the same proof as another: its name, its gate and its target. */
  function IdentityOf(event: Value): Identity {
    (TextAt(event, "event"), TextAt(event, "gate_id"), TextAt(event, "target"))
  }

  function IdentitiesOf(events: seq<Value>): set<Identity> { set i | 0 <= i < |events| :: IdentityOf(events[i]) }

  predicate PublicName(t: Tables, v: Value) { CleanText(v) && !t.isCredential(v.s) }

  predicate IdOk(t: Tables, v: Value) { if v.Str? && v.s != "" then PublicName(t, v) else !Truthy(v) }

  predicate EventOk(t: Tables, v: Value) {
    && v.Obj? && EventShapeOk(t, v.fields)
    && PublicName(t, Get(v.fields, "event", Str(""))) && PublicName(t, Get(v.fields, "gate_id", Str("")))
    && IdOk(t, Get(v.fields, "id", Str("")))
  }

  /** Key by key, what an event may hold; besides, it must tell its schema, its name and its
      gate. */
  predicate EventMemberFits(t: Tables, key: string, v: Value) {
    match key
    case "event" => HoldsPublicText(t, v) && v.s != ""
    case "gate_id" => HoldsPublicText(t, v) && v.s != ""
    case "schema_version" => HoldsPublicText(t, v) && v.s != ""
    case "id" => IsEmptyOrPublic(t, v)
    case "provider" => IsEmptyOrPublic(t, v)
    case "classification" => IsEmptyOrPublic(t, v)
    case "status" => IsEmptyOrPublic(t, v)
    case "target" => IsEmptyOrPublic(t, v)
    case "captured_targets" => HoldsPublicTexts(t, v)
    case "target_count" => IsCount(v)
    case "created_at" => IsCount(v)
    case _ => true
  }

  predicate IsEmptyOrPublic(t: Tables, v: Value) { v == Str("") || HoldsPublicText(t, v) }

  lemma EventByKeys(t: Tables, v: Value)
    ensures EventOk(t, v) <==>
      && v.Obj? && v.fields.Keys <= t.eventKeys
      && "schema_version" in v.fields && "event" in v.fields && "gate_id" in v.fields
      && forall key :: key in v.fields ==> EventMemberFits(t, key, v.fields[key])
  {
    if v.Obj? {
      if EventOk(t, v) {
        forall key | key in v.fields ensures EventMemberFits(t, key, v.fields[key]) {
          EventKeyFits(t, v.fields, key);
        }
      } else {
        if && v.fields.Keys <= t.eventKeys
           && "schema_version" in v.fields && "event" in v.fields && "gate_id" in v.fields
           && forall key :: key in v.fields ==> EventMemberFits(t, key, v.fields[key]) {
          EventKeysSuffice(t, v.fields);
        }
      }
      hide EventMemberFits, EVENT_TEXTS, PublicList;
    }
  }

  lemma EmptyIsTrimmed()
    ensures IsTrimmed("")
  {
  }

  lemma EventKeyFits(t: Tables, event: map<string, Value>, key: string)
    requires EventOk(t, Obj(event)) && key in event
    ensures EventMemberFits(t, key, event[key])
  {
    ListsOfTexts(t, event[key]);
    hide PublicList, HoldsPublicTexts, Strip;
  }

  lemma EventKeysSuffice(t: Tables, event: map<string, Value>)
    requires event.Keys <= t.eventKeys && "schema_version" in event && "event" in event && "gate_id" in event
    requires forall key :: key in event ==> EventMemberFits(t, key, event[key])
    ensures EventOk(t, Obj(event))
  {
    EmptyIsTrimmed();
    hide Strip;
    forall k | k in EVENT_TEXTS && k in event
      ensures event[k].Str? && IsTrimmed(event[k].s) && (event[k].s != "" ==> !t.isCredential(event[k].s))
    {
      assert EventMemberFits(t, k, event[k]);
    }
    hide EVENT_TEXTS;
    assert EventMemberFits(t, "event", event["event"]) && EventMemberFits(t, "gate_id", event["gate_id"]);
    assert EventMemberFits(t, "schema_version", event["schema_version"]);
    assert "id" in event ==> EventMemberFits(t, "id", event["id"]);
    assert "target_count" in event ==> EventMemberFits(t, "target_count", event["target_count"]);
    assert "created_at" in event ==> EventMemberFits(t, "created_at", event["created_at"]);
    if "captured_targets" in event {
      assert EventMemberFits(t, "captured_targets", event["captured_targets"]);
      ListsOfTexts(t, event["captured_targets"]);
    }
  }

  /** Every event is well formed, no id repeats an earlier one, and no event proves again
      what an earlier one proved. */
  ghost predicate EventsOk(t: Tables, events: seq<Value>) {
    events == [] ||
    (var before, last := events[..|events| - 1], events[|events| - 1];
     && EventsOk(t, before) && EventOk(t, last)
     && (TextAt(last, "id") == "" || TextAt(last, "id") !in NamesOf(before, "id"))
     && IdentityOf(last) !in IdentitiesOf(before))
  }

  /** A wake-event section without failures. */
  ghost predicate WakeSectionClean(t: Tables, wake: map<string, Value>) {
    var events, counts := Get(wake, "events", Null), Get(wake, "event_counts", Null);
    && wake.Keys <= t.wakeKeys && events.Arr? && counts.Obj?
    && Get(wake, "total", Null) == Int(|events.items|)
    && EventsOk(t, events.items)
    && PublicKeys(t, counts.fields) && IntegerCounts(counts.fields)
    && forall name :: name in NamesOf(events.items, "event") ==>
         name in counts.fields && counts.fields[name] == Int(CountOf(events.items, "event", name))
  }

  predicate PublicKeys(t: Tables, counts: map<string, Value>) {
    forall k :: k in counts ==> k != "" && IsTrimmed(k) && !t.isCredential(k)
  }

  /** What the loop over the events has collected. */
  ghost predicate Seen(events: seq<Value>, counts: map<string, nat>, ids: set<string>, proofs: set<Identity>) {
    && Tallied(events, "event", counts) && ids == NamesOf(events, "id") - {""} && proofs == IdentitiesOf(events)
  }

  lemma OccurringCounts(events: seq<Value>, counts: map<string, Value>, actual: map<string, nat>)
    requires Tallied(events, "event", actual)
    ensures CountsMatch(counts, actual) <==>
            forall name :: name in NamesOf(events, "event") ==>
              name in counts && counts[name] == Int(CountOf(events, "event", name))
  {
    hide CountOf, NamesOf;
  }

  lemma NothingSeen()
    ensures Seen([], map[], {}, {})
  {
  }

  lemma OneMoreEvent(t: Tables, events: seq<Value>, i: nat)
    requires i < |events|
    ensures EventsOk(t, events[..i + 1]) <==>
            && EventsOk(t, events[..i]) && EventOk(t, events[i])
            && (TextAt(events[i], "id") == "" || TextAt(events[i], "id") !in NamesOf(events[..i], "id"))
            && IdentityOf(events[i]) !in IdentitiesOf(events[..i])
  {
    hide EventOk, TextAt, NamesOf, IdentityOf, IdentitiesOf;
    assert events[..i + 1][..i] == events[..i] && events[..i + 1][i] == events[i];
  }

  lemma SeesOneMore(t: Tables, events: seq<Value>, i: nat, counts: map<string, nat>, ids: set<string>,
      proofs: set<Identity>)
    requires i < |events| && Seen(events[..i], counts, ids, proofs)
    ensures Seen(events[..i + 1], Bump(counts, TextAt(events[i], "event")),
                 ids + (if TextAt(events[i], "id") == "" then {} else {TextAt(events[i], "id")}),
                 proofs + {IdentityOf(events[i])})
  {
    hide TextAt, Bump, Tallied, IdentityOf;
    BumpTallies(events, i, "event", counts);
    CountsOneMore(events, i, "event");
    var more := events[..i + 1];
    assert more == events[..i] + [events[i]];
    forall p ensures p in IdentitiesOf(more) <==> p in IdentitiesOf(events[..i]) + {IdentityOf(events[i])} {
      if p in IdentitiesOf(events[..i]) {
        var a :| 0 <= a < i && IdentityOf(events[..i][a]) == p;
        assert more[a] == events[..i][a];
      }
      assert more[i] == events[i];
    }
  }

  /** One round of the loop over the events. */
  method ScanEvent(t: Tables, event: Value, index: nat, start: seq<Finding>, counts: map<string, nat>,
      ids: set<string>, proofs: set<Identity>)
    returns (failures: seq<Finding>, newCounts: map<string, nat>, newIds: set<string>, newProofs: set<Identity>)
    requires "" !in ids
    ensures "" !in newIds
    ensures failures == [] <==>
      start == [] && EventOk(t, event) && TextAt(event, "id") !in ids && IdentityOf(event) !in proofs
    ensures failures == [] ==>
      && newCounts == Bump(counts, TextAt(event, "event")) && newProofs == proofs + {IdentityOf(event)}
      && newIds == ids + (if TextAt(event, "id") == "" then {} else {TextAt(event, "id")})
  {
    hide EventShapeOk, IsTrimmed;
    failures, newCounts, newIds, newProofs := start, counts, ids, proofs;
    if !event.Obj? {
      failures := Note(false, NoObject(index), failures);
      return;
    }
    var fields := event.fields;
    failures := Note(EventShapeOk(t, fields), BadShape(index), failures);
    var name, gateId, id := Get(fields, "event", Str("")), Get(fields, "gate_id", Str("")), Get(fields, "id", Str(""));
    failures := Note(PublicName(t, name), BadEventName(index), failures);
    if PublicName(t, name) {
      CleanIsText(event, "event");
      newCounts := Bump(counts, name.s);
    }
    failures := Note(PublicName(t, gateId), BadGateId(index), failures);
    if id.Str? && id.s != "" {
      failures := Note(PublicName(t, id), BadId(index), failures);
      failures := Note(id.s !in ids, RepeatedId(index), failures);
      newIds := ids + {id.s};
    } else {
      failures := Note(!Truthy(id), BadId(index), failures);
    }
    if name.Str? && gateId.Str? && name.s != "" && gateId.s != "" {
      failures := Note(IdentityOf(event) !in proofs, RepeatedEvent(index), failures);
      newProofs := proofs + {IdentityOf(event)};
    }
  }

  /** `_wake_events_preflight_failures`. */
  method WakeEventsFailures(t: Tables, wake: map<string, Value>) returns (failures: seq<Finding>)
    ensures failures == [] <==> WakeSectionClean(t, wake)
  {
    hide EventOk, PublicKeys, IntegerCounts, Tallied, CountOf, NamesOf, IdentitiesOf, Bump, IdentityOf, TextAt;
    failures := Note(wake.Keys <= t.wakeKeys, UnexpectedFields, []);
    var part, countsPart := Get(wake, "events", Null), Get(wake, "event_counts", Null);
    var events, counts := Items(part), Fields(countsPart);
    failures := Note(part.Arr?, MissingPart, failures);
    failures := Note(countsPart.Obj?, MissingPart, failures);
    failures := Note(Get(wake, "total", Null) == Int(|events|), BadTotal, failures);
    ghost var framed := failures == [];
    var actual: map<string, nat>, ids: set<string>, proofs: set<Identity> := map[], {}, {};
    NothingSeen();
    assert events[..0] == [];
    for i := 0 to |events|
      invariant failures == [] <==> framed && EventsOk(t, events[..i])
      invariant failures == [] ==> Seen(events[..i], actual, ids, proofs)
      invariant "" !in ids
    {
      assert events[..i + 1][..i] == events[..i] && events[..i + 1][i] == events[i];
      hide EventsOk;
      if failures == [] {
        SeesOneMore(t, events, i, actual, ids, proofs);
      }
      OneMoreEvent(t, events, i);
      failures, actual, ids, proofs := ScanEvent(t, events[i], i, failures, actual, ids, proofs);
    }
    assert events[..|events|] == events;
    if failures == [] {
      OccurringCounts(events, counts, actual);
    }
    failures := Note(PublicKeys(t, counts), BadCountKey, failures);
    failures := Note(IntegerCounts(counts), BadCount, failures);
    failures := Note(CountsMatch(counts, actual), CountDiffers, failures);
  }

  // ------------------------------------------------------- what a histogram adds up to

  ghost function SumOver(names: set<string>, f: string -> int): int {
    if names == {} then 0 else var n :| n in names; f(n) + SumOver(names - {n}, f)
  }

  lemma {:induction false} SumTakesOut(names: set<string>, f: string -> int, n: string)
    requires n in names
    ensures SumOver(names, f) == f(n) + SumOver(names - {n}, f)
    decreases |names|
  {
    var m :| m in names && SumOver(names, f) == f(m) + SumOver(names - {m}, f);
    if m != n {
      SumTakesOut(names - {m}, f, n);
      SumTakesOut(names - {n}, f, m);
      assert names - {m} - {n} == names - {n} - {m};
    }
  }

  lemma {:induction false} SumAgrees(names: set<string>, f: string -> int, g: string -> int)
    requires forall n :: n in names ==> f(n) == g(n)
    ensures SumOver(names, f) == SumOver(names, g)
    decreases |names|
  {
    if names != {} {
      var n :| n in names;
      SumTakesOut(names, f, n);
      SumTakesOut(names, g, n);
      SumAgrees(names - {n}, f, g);
    }
  }

  /** The counts of all names add up to the number of records. */
  lemma {:induction false} CountsAddUp(names: set<string>, records: seq<Value>, key: string)
    requires NamesOf(records, key) <= names
    ensures SumOver(names, (n: string) => CountOf(records, key, n)) == |records|
    decreases |records|
  {
    hide TextAt;
    var f := (n: string) => CountOf(records, key, n);
    if records == [] {
      SumAgrees(names, f, n => 0);
      SumOfZeros(names);
    } else {
      var most, last := records[..|records| - 1], TextAt(records[|records| - 1], key);
      var g := (n: string) => CountOf(most, key, n);
      assert records[..|records|] == records;
      CountsOneMore(records, |records| - 1, key);
      CountsAddUp(names, most, key);
      SumTakesOut(names, f, last);
      SumTakesOut(names, g, last);
      SumAgrees(names - {last}, f, g);
    }
  }

  lemma {:induction false} SumOfZeros(names: set<string>)
    ensures SumOver(names, n => 0) == 0
    decreases |names|
  {
    if names != {} {
      var f: string -> int := n => 0;
      var n :| n in names;
      SumTakesOut(names, n => 0, n);
      SumOfZeros(names - {n});
    }
  }

  /** The count a table gives, nothing for what it does not list. */
  function CountIn(counts: map<string, Value>): string -> int {
    (n: string) => if n in counts && counts[n].Int? then counts[n].n else 0
  }

  /** In a gate section without failures the status counts add up to the total, and every
      status is counted at least once. */
  lemma StatusesSumToTotal(t: Tables, gates: map<string, Value>)
    requires GateSectionExact(t, gates)
    ensures var statuses := Get(gates, "statuses", Null).fields;
            && Get(gates, "total", Null) == Int(SumOver(statuses.Keys, CountIn(statuses)))
            && forall s :: s in statuses ==> statuses[s].Int? && statuses[s].n > 0
  {
    hide GatesOk, NamesOf, CountOf;
    var statuses, records := Get(gates, "statuses", Null).fields, Get(gates, "records", Null).items;
    CountsAddUp(statuses.Keys, records, "status");
    SumAgrees(statuses.Keys, CountIn(statuses), (n: string) => CountOf(records, "status", n));
    forall s | s in statuses ensures statuses[s].n > 0 {
      UsedNamesCount(records, "status", s);
    }
  }

  lemma {:induction false} UsedNamesCount(records: seq<Value>, key: string, name: string)
    requires name in NamesOf(records, key)
    ensures CountOf(records, key, name) > 0
  {
    hide TextAt;
    var i :| 0 <= i < |records| && TextAt(records[i], key) == name;
    if i < |records| - 1 {
      assert records[..|records| - 1][i] == records[i];
      UsedNamesCount(records[..|records| - 1], key, name);
    }
  }

  /** In a wake-event section without failures the counts of the names that occur add up to
      the total; the whole table is a histogram exactly when it lists no other name. */
  lemma OccurringCountsSumToTotal(t: Tables, wake: map<string, Value>)
    requires WakeSectionClean(t, wake)
    ensures var events, counts := Get(wake, "events", Null).items, Get(wake, "event_counts", Null).fields;
            && Get(wake, "total", Null) == Int(SumOver(NamesOf(events, "event"), CountIn(counts)))
            && (IsHistogram(counts, events, "event") <==> counts.Keys <= NamesOf(events, "event"))
  {
    hide EventsOk, NamesOf, CountOf, PublicKeys, IntegerCounts;
    var events, counts := Get(wake, "events", Null).items, Get(wake, "event_counts", Null).fields;
    CountsAddUp(NamesOf(events, "event"), events, "event");
    SumAgrees(NamesOf(events, "event"), CountIn(counts), (n: string) => CountOf(events, "event", n));
  }

  /** The counts of names that never occur are not checked: any public name may be listed
      with any number. */
  lemma StrayCountsPass(t: Tables, wake: map<string, Value>, name: string, n: int)
    requires WakeSectionClean(t, wake)
    requires name !in NamesOf(Get(wake, "events", Null).items, "event")
    requires name != "" && IsTrimmed(name) && !t.isCredential(name)
    ensures WakeSectionClean(t, wake["event_counts" := Obj(Get(wake, "event_counts", Null).fields[name := Int(n)])])
  {
    hide EventsOk, NamesOf, CountOf;
    var changed := wake["event_counts" := Obj(Get(wake, "event_counts", Null).fields[name := Int(n)])];
    assert Get(changed, "events", Null) == Get(wake, "events", Null)
      && Get(changed, "total", Null) == Get(wake, "total", Null);
    assert changed.Keys == wake.Keys;
  }

  /** No two events prove the same thing, and no id is used twice. */
  lemma {:induction false} EventsAreDistinct(t: Tables, events: seq<Value>, i: nat, j: nat)
    requires i < j < |events|
    ensures EventsOk(t, events) ==> IdentityOf(events[i]) != IdentityOf(events[j])
    ensures EventsOk(t, events) && TextAt(events[j], "id") != "" ==> TextAt(events[i], "id") != TextAt(events[j], "id")
    decreases |events|
  {
    hide TextAt, IdentityOf, EventOk;
    var before := events[..|events| - 1];
    assert before[i] == events[i];
    if j < |events| - 1 {
      assert before[j] == events[j];
      EventsAreDistinct(t, before, i, j);
    } else {
      assert IdentityOf(before[i]) in IdentitiesOf(before);
      assert TextAt(before[i], "id") in NamesOf(before, "id");
    }
  }

  // ------------------------------------------------------- captures and their events

  type Pair = (string, string)

  function StrippedAt(fields: map<string, Value>, key: string, show: Value -> string): string {
    Strip(TextField(fields, key, "", show))
  }

  predicate IsCapture(event: Value, show: Value -> string) {
    event.Obj? && StrippedAt(event.fields, "event", show) == "clipboard_captured"
  }

  function PairOf(event: Value, show: Value -> string): Pair {
    if event.Obj? then (StrippedAt(event.fields, "gate_id", show), StrippedAt(event.fields, "target", show))
      else ("", "")
  }

  function CapturedPairs(events: seq<Value>, show: Value -> string): (r: set<Pair>)
    ensures forall p :: p in r <==>
      exists i :: 0 <= i < |events| && IsCapture(events[i], show) && PairOf(events[i], show) == p
  {
    set i | 0 <= i < |events| && IsCapture(events[i], show) :: PairOf(events[i], show)
  }

  /** `str(target or "").strip()`. */
  function TargetText(v: Value, show: Value -> string): string { Strip(if Truthy(v) then TextOf(v, show) else "") }

  /** Every captured target of the gate is among the pairs. */
  predicate GateWoken(gate: Value, pairs: set<Pair>, show: Value -> string) {
    gate.Obj? ==>
      var id, targets := StrippedAt(gate.fields, "id", show), Get(gate.fields, "captured_targets", Arr([]));
      id != "" && targets.Arr? ==>
        forall i :: 0 <= i < |targets.items| ==>
          TargetText(targets.items[i], show) == "" || (id, TargetText(targets.items[i], show)) in pairs
  }

  /** `_gate_wake_consistency_failures`. */
  method GateWakeFailures(t: Tables, gates: map<string, Value>, wake: map<string, Value>)
    returns (failures: seq<Finding>)
    ensures var records, events := Get(gates, "records", Arr([])), Get(wake, "events", Arr([]));
            failures == [] <==>
            (records.Arr? && events.Arr? ==>
              forall i :: 0 <= i < |records.items| ==>
                GateWoken(records.items[i], CapturedPairs(events.items, t.show), t.show))
  {
    hide CapturedPairs, StrippedAt, TargetText;
    failures := [];
    var records, events := Get(gates, "records", Arr([])), Get(wake, "events", Arr([]));
    if !records.Arr? || !events.Arr? {
      return;
    }
    var pairs := CapturedPairs(events.items, t.show);
    for i := 0 to |records.items|
      invariant failures == [] <==> forall k :: 0 <= k < i ==> GateWoken(records.items[k], pairs, t.show)
    {
      var gate := records.items[i];
      if !gate.Obj? {
        continue;
      }
      var id, targets := StrippedAt(gate.fields, "id", t.show), Get(gate.fields, "captured_targets", Arr([]));
      if id == "" || !targets.Arr? {
        continue;
      }
      ghost var start := failures;
      for j := 0 to |targets.items|
        invariant failures == [] <==> start == [] && forall k :: 0 <= k < j ==>
                    TargetText(targets.items[k], t.show) == "" || (id, TargetText(targets.items[k], t.show)) in pairs
      {
        var target := TargetText(targets.items[j], t.show);
        failures := Note(target == "" || (id, target) in pairs, NoWakeEvent(id, target), failures);
      }
    }
  }

  /** An event that says this gate captured this target. */
  predicate Proves(event: Value, gateId: string, target: string) {
    TextAt(event, "event") == "clipboard_captured" && TextAt(event, "gate_id") == gateId
      && TextAt(event, "target") == target
  }

  ghost predicate IsProved(events: seq<Value>, gateId: string, target: string) {
    exists e :: 0 <= e < |events| && Proves(events[e], gateId, target)
  }

  predicate Captured(gate: Value, target: string) {
    && target != "" && gate.Obj? && Get(gate.fields, "captured_targets", Null).Arr?
    && Str(target) in gate.fields["captured_targets"].items
  }

  lemma CleanPair(t: Tables, event: Value, id: string, target: string)
    requires EventOk(t, event) && target != ""
    ensures IsCapture(event, t.show) && PairOf(event, t.show) == (id, target) <==> Proves(event, id, target)
  {
    CleanStripped(t, event, "event");
    CleanStripped(t, event, "gate_id");
    CleanStripped(t, event, "target");
  }

  lemma CleanStripped(t: Tables, event: Value, key: string)
    requires event.Obj? && EventShapeOk(t, event.fields) && key in EVENT_TEXTS
    ensures StrippedAt(event.fields, key, t.show) == TextAt(event, key)
  {
    assert Strip("") == "";
    hide Strip;
  }

  lemma {:induction false} EveryEventOk(t: Tables, events: seq<Value>, i: nat)
    requires i < |events|
    ensures EventsOk(t, events) ==> EventOk(t, events[i])
    decreases |events|
  {
    hide EventOk;
    if i < |events| - 1 {
      assert events[..|events| - 1][i] == events[i];
      EveryEventOk(t, events[..|events| - 1], i);
    }
  }

  lemma CleanGate(t: Tables, gate: Value)
    requires GateOk(t, gate)
    ensures StrippedAt(gate.fields, "id", t.show) == TextAt(gate, "id") != ""
    ensures "captured_targets" in gate.fields && gate.fields["captured_targets"].Arr? ==>
      PublicList(t, gate.fields["captured_targets"])
  {
    assert "captured_targets" in GATE_LISTS;
    hide Strip, GATE_TEXTS, GATE_TIMES;
  }

  lemma CleanTarget(t: Tables, v: Value)
    requires PublicText(t, v)
    ensures TargetText(v, t.show) == v.s
  {
    assert Strip("") == "";
    hide Strip;
  }

  /** The two ways to say that what a clean gate captured is proved. */
  lemma WokenIsProved(t: Tables, gate: Value, events: seq<Value>)
    requires GateOk(t, gate) && EventsOk(t, events)
    ensures GateWoken(gate, CapturedPairs(events, t.show), t.show) <==>
            forall target :: Captured(gate, target) ==> IsProved(events, TextAt(gate, "id"), target)
  {
    CleanGate(t, gate);
    hide GateOk, EventsOk, StrippedAt, TextAt, PublicText, TargetText, IsProved, CapturedPairs;
    var id, pairs := TextAt(gate, "id"), CapturedPairs(events, t.show);
    forall target | target != "" ensures (id, target) in pairs <==> IsProved(events, id, target) {
      PairIsProved(t, events, id, target);
    }
    var targets := Get(gate.fields, "captured_targets", Arr([]));
    if targets.Arr? {
      forall i | 0 <= i < |targets.items| ensures targets.items[i] == Str(TargetText(targets.items[i], t.show)) {
        TargetIsText(t, targets.items[i]);
      }
    }
  }

  lemma PairIsProved(t: Tables, events: seq<Value>, id: string, target: string)
    requires EventsOk(t, events) && target != ""
    ensures (id, target) in CapturedPairs(events, t.show) <==> IsProved(events, id, target)
  {
    hide EventsOk, EventOk, IsCapture, PairOf, Proves;
    forall e | 0 <= e < |events|
      ensures IsCapture(events[e], t.show) && PairOf(events[e], t.show) == (id, target) <==>
        Proves(events[e], id, target)
    {
      EveryEventOk(t, events, e);
      CleanPair(t, events[e], id, target);
    }
  }

  lemma TargetIsText(t: Tables, v: Value)
    requires PublicText(t, v)
    ensures v == Str(TargetText(v, t.show))
  {
    CleanTarget(t, v);
  }

  /** With both sections clean, the consistency check passes exactly when every target that a
      gate captured has an event saying so, for that very gate and target. */
  lemma CapturesAreProved(t: Tables, gates: map<string, Value>, wake: map<string, Value>)
    requires GateSectionExact(t, gates) && WakeSectionClean(t, wake)
    ensures var records, events := gates["records"].items, wake["events"].items;
            (forall i :: 0 <= i < |records| ==> GateWoken(records[i], CapturedPairs(events, t.show), t.show)) <==>
            (forall i, target :: 0 <= i < |records| && Captured(records[i], target) ==>
              IsProved(events, TextAt(records[i], "id"), target))
  {
    hide GateOk, EventsOk, GateWoken, Captured, IsProved, TextAt, CapturedPairs, IsHistogram, NamesOf, PublicKeys,
      IntegerCounts;
    var records, events := gates["records"].items, wake["events"].items;
    forall i | 0 <= i < |records|
      ensures GateWoken(records[i], CapturedPairs(events, t.show), t.show) <==>
              forall target :: Captured(records[i], target) ==> IsProved(events, TextAt(records[i], "id"), target)
    {
      WokenIsProved(t, records[i], events);
    }
  }
}
