/** What the job store demands of the two payment artifacts before it stores them, and how
    it stores them (hosted/job_store.py). */
module PaymentReceipts {
  import opened Folders
  import opened JobStore
  import opened Json
  import opened Outcomes
  import opened Text

  const LANE := "managed-fusekit-run"

  const WEBHOOK_KEYS: set<string> := {
    "schema_version", "action", "event_type", "accepted", "payment_applied", "job_id", "payment_status",
    "managed_worker_dispatch_unlocked", "worker_dispatch_sent", "next_required_proof", "receipt_statement",
    "secret_boundary"}

  const NEXT_REQUIRED_PROOF: seq<Value> := [Str("worker_claim"), Str("detonation_receipt"), Str("recording")]

  const BOUNDARY_TERMS: seq<string> := [
    "card data", "payment method ids", "Stripe secret keys", "webhook signing secrets", "raw payloads",
    "provider credentials"]

  const DISPATCH_KEYS: set<string> := {
    "schema_version", "action", "dispatched", "dispatch_url", "dispatch_binding", "accepted", "duplicate",
    "receiver_schema_version", "idempotency", "cost_guard", "secret_boundary"}

  const IDEMPOTENCY_KEYS: set<string> := {"mode", "durable", "scope", "duplicate", "proof"}

  /** The tables and the rendering that other modules own. */
  datatype Policy = Policy(costGuard: Value, dispatchBoundary: string, webhookBoundary: string, startBoundary: string)

  // ------------------------------------------------------- Python's equality

  /** Python's `==` takes a boolean for a number. */
  function Plain(v: Value): Value {
    match v
    case Bool(b) => Int(if b then 1 else 0)
    case Arr(items) => Arr(seq(|items|, i requires 0 <= i < |items| => Plain(items[i])))
    case Obj(fields) => Obj(map k | k in fields :: Plain(fields[k]))
    case _ => v
  }

  predicate PyEq(a: Value, b: Value) { Plain(a) == Plain(b) }

  function Field(fields: map<string, Value>, key: string): Value { Get(fields, key, Null) }

  /** `_mapping`. */
  function Mapping(v: Value): map<string, Value> { if v.Obj? then v.fields else map[] }

  predicate NamesEveryTerm(boundary: Value) {
    boundary.Str? && forall i :: 0 <= i < |BOUNDARY_TERMS| ==> Contains(boundary.s, BOUNDARY_TERMS[i])
  }

  // ------------------------------------------------------- the webhook receipt

  function Bad(): Fault { FuseKitFault("is invalid") }

  /** `_validate_stripe_webhook_receipt`. */
  function ValidateWebhook(id: string, receipt: map<string, Value>): Fault {
    if receipt.Keys != WEBHOOK_KEYS then Bad()
    else if Field(receipt, "schema_version") != Str("fusekit.hosted-stripe-webhook.v1") then Bad()
    else if Field(receipt, "action") != Str("payment_webhook") then Bad()
    else if Field(receipt, "event_type") != Str("checkout.session.completed") then Bad()
    else if Field(receipt, "accepted") != Bool(true) then Bad()
    else if Field(receipt, "payment_applied") != Bool(true) then Bad()
    else if Field(receipt, "job_id") != Str(id) then Bad()
    else if Field(receipt, "payment_status") != Str("paid") then Bad()
    else if Field(receipt, "managed_worker_dispatch_unlocked") != Bool(true) then Bad()
    else if Field(receipt, "worker_dispatch_sent") != Bool(false) then Bad()
    else if Field(receipt, "next_required_proof") != Arr(NEXT_REQUIRED_PROOF) then Bad()
    else if !NamesEveryTerm(Field(receipt, "secret_boundary")) then Bad()
    else Fine
  }

  // ------------------------------------------------------- the start response

  /** The payment part of `_validate_managed_start_response`. */
  function ValidatePayment(id: string, payment: Value): Fault {
    if !payment.Obj? then Bad()
    else if Field(payment.fields, "required") != Bool(true) || Field(payment.fields, "status") != Str("paid") then Bad()
    else
      var receipt := Field(payment.fields, "receipt");
      if !receipt.Obj? then Bad()
      else if Field(receipt.fields, "client_reference_id") != Str(id) then Bad()
      else
        var metadata := Field(receipt.fields, "metadata");
        if !metadata.Obj? then Bad()
        else if Field(metadata.fields, "job_id") != Str(id) then Bad()
        else if Field(metadata.fields, "lane") != Str(LANE) then Bad()
        else Fine
  }

  function MetadataOf(payment: Value): map<string, Value> {
    Mapping(Field(Mapping(Field(Mapping(payment), "receipt")), "metadata"))
  }

  predicate SameHashes(binding: map<string, Value>, metadata: map<string, Value>) {
    && PyEq(Field(binding, "plan_fingerprint"), Field(metadata, "plan_fingerprint"))
    && PyEq(Field(binding, "stripe_price_id_hash"), Field(metadata, "stripe_price_id_hash"))
    && PyEq(Field(binding, "price_label_hash"), Field(metadata, "price_label_hash"))
  }

  /** The binding of the dispatch to the job and to what was paid. */
  function ValidateBinding(id: string, binding: Value, metadata: map<string, Value>): Fault {
    if !binding.Obj? then Bad()
    else if Field(binding.fields, "job_id") != Str(id) then Bad()
    else if Field(binding.fields, "lane") != Str(LANE) then Bad()
    else if Field(binding.fields, "payment_status") != Str("paid") then Bad()
    else if !SameHashes(binding.fields, metadata) then Bad()
    else Fine
  }

  function ValidateIdempotency(idempotency: Value): Fault {
    if !idempotency.Obj? then Bad()
    else if idempotency.fields.Keys != IDEMPOTENCY_KEYS then Bad()
    else if Field(idempotency.fields, "mode") != Str("dispatch-state-dir") then Bad()
    else if Field(idempotency.fields, "durable") != Bool(true) then Bad()
    else if Field(idempotency.fields, "scope") != Str("worker deployment") then Bad()
    else
      var proof := Field(idempotency.fields, "proof");
      if !proof.Str? || !Contains(proof.s, "before worker spawn") then Bad() else Fine
  }

  /** The dispatch part of `_validate_managed_start_response`. */
  function ValidateDispatch(policy: Policy, id: string, dispatch: Value, metadata: map<string, Value>): Fault {
    if !dispatch.Obj? then Bad()
    else if dispatch.fields.Keys != DISPATCH_KEYS then Bad()
    else if Field(dispatch.fields, "schema_version") != Str("fusekit.hosted-worker-dispatch.v1") then Bad()
    else if Field(dispatch.fields, "action") != Str("start") then Bad()
    else if Field(dispatch.fields, "dispatched") != Bool(true)
      || Field(dispatch.fields, "accepted") != Bool(true) then Bad()
    else if Field(dispatch.fields, "receiver_schema_version") != Str("fusekit.hosted-worker-dispatch-receipt.v1")
      then Bad()
    else if !ValidateBinding(id, Field(dispatch.fields, "dispatch_binding"), metadata).Fine? then Bad()
    else if !ValidateIdempotency(Field(dispatch.fields, "idempotency")).Fine? then Bad()
    else if !PyEq(Field(dispatch.fields, "cost_guard"), policy.costGuard) then Bad()
    else if Field(dispatch.fields, "secret_boundary") != Str(policy.dispatchBoundary) then Bad()
    else Fine
  }

  /** `_validate_managed_start_response`. */
  function ValidateStart(policy: Policy, id: string, response: map<string, Value>): Fault {
    if "job_token" in response then Bad()
    else if Field(response, "schema_version") != Str("fusekit.hosted-job.v1") then Bad()
    else if Field(response, "job_id") != Str(id) then Bad()
    else if Field(response, "launch_lane") != Str(LANE) then Bad()
    else if Field(response, "status") != Str("waiting_for_provider_gates") then Bad()
    else if !ValidatePayment(id, Field(response, "payment")).Fine? then Bad()
    else if Field(Mapping(Field(response, "action_receipt")), "action") != Str("start") then Bad()
    else ValidateDispatch(policy, id, Field(response, "worker_dispatch"), MetadataOf(Field(response, "payment")))
  }

  // ------------------------------------------------------- storing

  const WEBHOOK_WRAPPER := "fusekit.hosted-job-store-stripe-webhook-receipt.v1"
  const START_WRAPPER := "fusekit.hosted-job-store-managed-start-response.v1"

  function WebhookWrapper(policy: Policy, wire: Wire, id: string, receipt: map<string, Value>): map<string, Value> {
    map["schema_version" := Str(WEBHOOK_WRAPPER), "job_id" := Str(id),
        "receipt_schema_version" := Field(receipt, "schema_version"), "receipt_sha256" := Str(wire.Hash(receipt)),
        "receipt" := Obj(receipt), "secret_boundary" := Str(policy.webhookBoundary)]
  }

  function StartWrapper(policy: Policy, wire: Wire, id: string, response: map<string, Value>): map<string, Value> {
    map["schema_version" := Str(START_WRAPPER), "job_id" := Str(id),
        "response_schema_version" := Field(response, "schema_version"), "response_sha256" := Str(wire.Hash(response)),
        "response" := Obj(response), "secret_boundary" := Str(policy.startBoundary)]
  }

  /** What the job store asks of a receipt: a hosted id, its own rules, and no text that
      looks private. */
  ghost predicate StorableReceipt(policy: Policy, wire: Wire, id: string, receipt: map<string, Value>) {
    && ValidId(id) && ValidateWebhook(id, receipt).Fine? && !wire.isPrivate(wire.spaced(Obj(receipt)))
    && !wire.isPrivate(wire.compact(Obj(WebhookWrapper(policy, wire, id, receipt))))
  }

  /** What it asks of a start response. */
  ghost predicate StorableResponse(policy: Policy, wire: Wire, id: string, response: map<string, Value>) {
    && ValidId(id) && ValidateStart(policy, id, response).Fine? && !wire.isPrivate(wire.spaced(Obj(response)))
    && !wire.isPrivate(wire.compact(Obj(StartWrapper(policy, wire, id, response))))
  }

  /** `put_stripe_webhook_receipt`. */
  method PutWebhookReceipt(folder: Folder, policy: Policy, wire: Wire, id: string, receipt: map<string, Value>,
      calls: StoreCalls)
    returns (r: Fault)
    requires calls.Proper(folder.files, id, WebhookReceipt)
    modifies folder
    ensures var accepted := StorableReceipt(policy, wire, id, receipt);
            var text := wire.Text(Obj(WebhookWrapper(policy, wire, id, receipt)));
            && (!accepted ==> !r.Fine? && folder.files == old(folder.files))
            && (accepted ==>
                  && AlwaysOldOrNew(folder.history, |old(folder.history)|, old(folder.files), id, WebhookReceipt,
                    calls.random, text)
                  && Stored(folder.files, old(folder.files), id, WebhookReceipt, calls, text, r)
                  && (calls.AllFine() ==> r.Fine?))
  {
    hide ValidId, ValidateWebhook, WebhookWrapper, OldOrNew;
    if !ValidId(id) {
      return FuseKitFault("id is invalid");
    }
    if !ValidateWebhook(id, receipt).Fine? {
      return ValidateWebhook(id, receipt);
    }
    if wire.isPrivate(wire.spaced(Obj(receipt))) {
      return FuseKitFault("private-looking text");
    }
    r := WritePublicPayload(folder, wire, id, WebhookReceipt, Obj(WebhookWrapper(policy, wire, id, receipt)), calls);
  }

  /** `put_managed_start_response`. */
  method PutStartResponse(folder: Folder, policy: Policy, wire: Wire, id: string, response: map<string, Value>,
      calls: StoreCalls)
    returns (r: Fault)
    requires calls.Proper(folder.files, id, StartResponse)
    modifies folder
    ensures var accepted := StorableResponse(policy, wire, id, response);
            var text := wire.Text(Obj(StartWrapper(policy, wire, id, response)));
            && (!accepted ==> !r.Fine? && folder.files == old(folder.files))
            && (accepted ==>
                  && AlwaysOldOrNew(folder.history, |old(folder.history)|, old(folder.files), id, StartResponse,
                    calls.random, text)
                  && Stored(folder.files, old(folder.files), id, StartResponse, calls, text, r)
                  && (calls.AllFine() ==> r.Fine?))
  {
    hide ValidId, ValidateStart, StartWrapper, OldOrNew;
    if !ValidId(id) {
      return FuseKitFault("id is invalid");
    }
    if !ValidateStart(policy, id, response).Fine? {
      return ValidateStart(policy, id, response);
    }
    if wire.isPrivate(wire.spaced(Obj(response))) {
      return FuseKitFault("private-looking text");
    }
    r := WritePublicPayload(folder, wire, id, StartResponse, Obj(StartWrapper(policy, wire, id, response)), calls);
  }
}
