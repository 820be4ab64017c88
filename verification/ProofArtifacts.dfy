/** Reading the stored artifacts back for a live checkout proof: the hash wrapper
    (hosted/live_checkout_proof.py). */
module ProofArtifacts {
  import opened Folders
  import opened JobStore
  import opened Json
  import opened Outcomes
  import opened PaymentReceipts

  const MAX_JSON_BYTES := 1_048_576

  const WEBHOOK_WRAPPER_KEYS: set<string> := {
    "schema_version", "job_id", "receipt_schema_version", "receipt_sha256", "receipt", "secret_boundary"}

  const START_WRAPPER_KEYS: set<string> := {
    "schema_version", "job_id", "response_schema_version", "response_sha256", "response", "secret_boundary"}

  /** `_read_json` on a file that is no symbolic link. */
  function ReadJson(files: Files, name: string, wire: Wire): Outcome<map<string, Value>> {
    if name !in files then Raised(FuseKitFault("input unreadable"))
    else if !files[name].File? then Raised(FuseKitFault("input not file"))
    else if |files[name].content| > MAX_JSON_BYTES then Raised(FuseKitFault("input too large"))
    else
      match wire.parse(files[name].content)
      case None => Raised(FuseKitFault("input invalid json"))
      case Some(v) => if v.Obj? then Returned(v.fields) else Raised(FuseKitFault("input must be object"))
  }

  /** `_read_webhook_receipt_json`. */
  function ReadWebhookReceipt(policy: Policy, files: Files, name: string, wire: Wire): Outcome<map<string, Value>> {
    var payload :- ReadJson(files, name, wire);
    if Field(payload, "schema_version") != Str(WEBHOOK_WRAPPER) then Returned(payload)
    else if payload.Keys != WEBHOOK_WRAPPER_KEYS then Raised(FuseKitFault("wrapper shape mismatch"))
    else if Field(payload, "secret_boundary") != Str(policy.webhookBoundary)
      then Raised(FuseKitFault("boundary mismatch"))
    else
      var receipt := Field(payload, "receipt");
      if !receipt.Obj? then Raised(FuseKitFault("receipt missing"))
      else if !PyEq(Field(payload, "job_id"), Field(receipt.fields, "job_id"))
        then Raised(FuseKitFault("job id mismatch"))
      else if !PyEq(Field(payload, "receipt_schema_version"), Field(receipt.fields, "schema_version"))
        then Raised(FuseKitFault("schema mismatch"))
      else if Field(payload, "receipt_sha256") != Str(wire.Hash(receipt.fields))
        then Raised(FuseKitFault("hash mismatch"))
      else Returned(receipt.fields)
  }

  /** `_read_start_action_response_json`. */
  function ReadStartResponse(policy: Policy, files: Files, name: string, wire: Wire): Outcome<map<string, Value>> {
    var payload :- ReadJson(files, name, wire);
    if Field(payload, "schema_version") != Str(START_WRAPPER) then Returned(payload)
    else if payload.Keys != START_WRAPPER_KEYS then Raised(FuseKitFault("wrapper shape mismatch"))
    else if Field(payload, "secret_boundary") != Str(policy.startBoundary)
      then Raised(FuseKitFault("boundary mismatch"))
    else
      var response := Field(payload, "response");
      if !response.Obj? then Raised(FuseKitFault("response missing"))
      else if !PyEq(Field(payload, "job_id"), Field(response.fields, "job_id"))
        then Raised(FuseKitFault("job id mismatch"))
      else if !PyEq(Field(payload, "response_schema_version"), Field(response.fields, "schema_version"))
        then Raised(FuseKitFault("schema mismatch"))
      else if Field(payload, "response_sha256") != Str(wire.Hash(response.fields))
        then Raised(FuseKitFault("hash mismatch"))
      else Returned(response.fields)
  }

  /** The wrapper vouches for what it holds: it has its own members and no others, names job
      and schema of what it holds, and carries its hash. */
  predicate Vouches(payload: map<string, Value>, kind: string, boundary: string, held: map<string, Value>, wire: Wire) {
    && payload.Keys == {"schema_version", "job_id", kind + "_schema_version", kind + "_sha256", kind, "secret_boundary"}
    && payload["secret_boundary"] == Str(boundary) && payload[kind] == Obj(held)
    && PyEq(payload["job_id"], Field(held, "job_id"))
    && PyEq(payload[kind + "_schema_version"], Field(held, "schema_version"))
    && payload[kind + "_sha256"] == Str(wire.Hash(held))
  }

  /** What is read from a wrapper is vouched for by it; a wrapper that was tampered with is
      refused.  A file that is no wrapper is read as it is. */
  lemma ReceiptIsVouchedFor(policy: Policy, files: Files, name: string, wire: Wire)
    ensures var payload, read := ReadJson(files, name, wire), ReadWebhookReceipt(policy, files, name, wire);
            && (payload.Raised? ==> read.Raised?)
            && (payload.Returned? && Field(payload.value, "schema_version") != Str(WEBHOOK_WRAPPER) ==> read == payload)
            && (payload.Returned? && Field(payload.value, "schema_version") == Str(WEBHOOK_WRAPPER) ==>
                  forall held :: read == Returned(held) <==>
                    Vouches(payload.value, "receipt", policy.webhookBoundary, held, wire))
  {
    hide ReadJson, PyEq;
    assert "receipt" + "_schema_version" == "receipt_schema_version" && "receipt" + "_sha256" == "receipt_sha256";
  }

  lemma ResponseIsVouchedFor(policy: Policy, files: Files, name: string, wire: Wire)
    ensures var payload, read := ReadJson(files, name, wire), ReadStartResponse(policy, files, name, wire);
            && (payload.Raised? ==> read.Raised?)
            && (payload.Returned? && Field(payload.value, "schema_version") != Str(START_WRAPPER) ==> read == payload)
            && (payload.Returned? && Field(payload.value, "schema_version") == Str(START_WRAPPER) ==>
                  forall held :: read == Returned(held) <==>
                    Vouches(payload.value, "response", policy.startBoundary, held, wire))
  {
    hide ReadJson, PyEq;
    assert "response" + "_schema_version" == "response_schema_version" && "response" + "_sha256" == "response_sha256";
  }

  /** An accepted receipt, once stored, reads back unchanged exactly when its file is within
      the reader's limit; a longer one, which the writer accepts, is refused. */
  lemma StoredReceiptReadsBack(policy: Policy, files: Files, wire: Wire, id: string, receipt: map<string, Value>)
    requires ValidateWebhook(id, receipt).Fine? && wire.Keeps(Obj(WebhookWrapper(policy, wire, id, receipt)))
    requires At(files, FileName(id, WebhookReceipt)) ==
      Some(File(wire.Text(Obj(WebhookWrapper(policy, wire, id, receipt)))))
    ensures var text := wire.Text(Obj(WebhookWrapper(policy, wire, id, receipt)));
            var read := ReadWebhookReceipt(policy, files, FileName(id, WebhookReceipt), wire);
            if |text| <= MAX_JSON_BYTES then read == Returned(receipt) else read.Raised?
  {
    hide ValidateWebhook, FileName, PyEq, WebhookWrapper;
    ReceiptNamesItsJob(id, receipt);
    WebhookWrapperFields(policy, wire, id, receipt);
    SameIsPyEq(Str(id));
    SameIsPyEq(Field(receipt, "schema_version"));
  }

  lemma StoredResponseReadsBack(policy: Policy, files: Files, wire: Wire, id: string, response: map<string, Value>)
    requires ValidateStart(policy, id, response).Fine? && wire.Keeps(Obj(StartWrapper(policy, wire, id, response)))
    requires At(files, FileName(id, StartResponse)) ==
      Some(File(wire.Text(Obj(StartWrapper(policy, wire, id, response)))))
    ensures var text := wire.Text(Obj(StartWrapper(policy, wire, id, response)));
            var read := ReadStartResponse(policy, files, FileName(id, StartResponse), wire);
            if |text| <= MAX_JSON_BYTES then read == Returned(response) else read.Raised?
  {
    hide ValidateStart, FileName, PyEq, StartWrapper;
    ResponseNamesItsJob(policy, id, response);
    StartWrapperFields(policy, wire, id, response);
    SameIsPyEq(Str(id));
    SameIsPyEq(Field(response, "schema_version"));
  }

  lemma ReceiptNamesItsJob(id: string, receipt: map<string, Value>)
    requires ValidateWebhook(id, receipt).Fine?
    ensures Field(receipt, "job_id") == Str(id)
  {
    hide NamesEveryTerm;
  }

  lemma ResponseNamesItsJob(policy: Policy, id: string, response: map<string, Value>)
    requires ValidateStart(policy, id, response).Fine?
    ensures Field(response, "job_id") == Str(id)
  {
    hide ValidatePayment, ValidateDispatch;
  }

  lemma WebhookWrapperFields(policy: Policy, wire: Wire, id: string, receipt: map<string, Value>)
    ensures var wrapper := WebhookWrapper(policy, wire, id, receipt);
            && wrapper.Keys == WEBHOOK_WRAPPER_KEYS && Field(wrapper, "schema_version") == Str(WEBHOOK_WRAPPER)
            && Field(wrapper, "job_id") == Str(id) && Field(wrapper, "receipt") == Obj(receipt)
            && Field(wrapper, "receipt_schema_version") == Field(receipt, "schema_version")
            && Field(wrapper, "receipt_sha256") == Str(wire.Hash(receipt))
            && Field(wrapper, "secret_boundary") == Str(policy.webhookBoundary)
  {
  }

  lemma StartWrapperFields(policy: Policy, wire: Wire, id: string, response: map<string, Value>)
    ensures var wrapper := StartWrapper(policy, wire, id, response);
            && wrapper.Keys == START_WRAPPER_KEYS && Field(wrapper, "schema_version") == Str(START_WRAPPER)
            && Field(wrapper, "job_id") == Str(id) && Field(wrapper, "response") == Obj(response)
            && Field(wrapper, "response_schema_version") == Field(response, "schema_version")
            && Field(wrapper, "response_sha256") == Str(wire.Hash(response))
            && Field(wrapper, "secret_boundary") == Str(policy.startBoundary)
  {
  }

  lemma SameIsPyEq(v: Value)
    ensures PyEq(v, v)
  {
  }
}
