/** The proof that a live managed checkout really happened, built from the two stored
    artifacts (hosted/live_checkout_proof.py), and its agreement with the job store, which
    checks the same artifacts with its own rules. */
module LiveCheckoutProof {
  import opened Folders
  import opened JobStore
  import opened Json
  import opened Outcomes
  import opened PaymentReceipts
  import PriceLabel
  import opened Text

  datatype Blocker =
    | WebhookShape | WebhookSchema | WebhookAction | WebhookEventType | WebhookNotAccepted | WebhookNotApplied
    | WebhookNotPaid | WebhookNotUnlocked | WebhookDispatched | WebhookNextProof | WebhookBoundary | WebhookJobId
    | StartSchema | StartLane | StartStatus | StartJobId | StartAction
    | PaymentNotRequired | PaymentNotPaid | PriceLabelDiffers | PriceIdDiffers | PaymentSchema | PaymentProvider
    | SessionId | SessionNotPaid | CheckoutNotComplete | CheckoutNotPaid | CheckoutMode | CheckoutAmount
    | CheckoutCurrency | PriceLabelInvalid | PriceLabelAmount
    | MetadataMissing(field: string) | MetadataInvalid(field: string)
    | DispatchShape | DispatchSchema | DispatchAction | DispatchNotSent | DispatchNotAccepted | DispatchReceiver
    | DispatchHash(field: string) | IdempotencyShape | IdempotencyMode | IdempotencyNotDurable | IdempotencyScope
    | IdempotencyProof | CostGuard | DispatchBoundary
    | JobIdMismatch | DispatchJobId | DispatchLane | DispatchNotPaid | ClientReference | MetadataJob | MetadataLane
    | BindingMismatch(field: string) | CommitShaInvalid

  /** Checks that other modules own: private text, session ids, price labels, and Python's
      `str` of a value that is not text. */
  datatype Judge = Judge(isPrivate: string -> bool, validSession: string -> bool, validLabel: string -> bool,
    show: Value -> string)

  /** `_public_job_id`, as text that is empty unless the id is good. */
  function PublicJobId(judge: Judge, v: Value): string {
    if v.Str? && ValidId(v.s) && !judge.isPrivate(v.s) then v.s else ""
  }

  // ------------------------------------------------------- the webhook receipt

  /** `_webhook_receipt_blockers`: none exactly when the job store accepts the receipt for
      the job it names, and that job has a public id. */
  method WebhookBlockers(judge: Judge, receipt: map<string, Value>) returns (blockers: seq<Blocker>)
    ensures blockers == [] <==>
      && PublicJobId(judge, Field(receipt, "job_id")) != ""
      && ValidateWebhook(PublicJobId(judge, Field(receipt, "job_id")), receipt).Fine?
  {
    hide Note, ValidId, NamesEveryTerm;
    blockers := Note(receipt.Keys == WEBHOOK_KEYS, WebhookShape, []);
    blockers := Note(Field(receipt, "schema_version") == Str("fusekit.hosted-stripe-webhook.v1"), WebhookSchema,
      blockers);
    blockers := Note(Field(receipt, "action") == Str("payment_webhook"), WebhookAction, blockers);
    blockers := Note(Field(receipt, "event_type") == Str("checkout.session.completed"), WebhookEventType, blockers);
    blockers := Note(Field(receipt, "accepted") == Bool(true), WebhookNotAccepted, blockers);
    blockers := Note(Field(receipt, "payment_applied") == Bool(true), WebhookNotApplied, blockers);
    blockers := Note(Field(receipt, "payment_status") == Str("paid"), WebhookNotPaid, blockers);
    blockers := Note(Field(receipt, "managed_worker_dispatch_unlocked") == Bool(true), WebhookNotUnlocked, blockers);
    blockers := Note(Field(receipt, "worker_dispatch_sent") == Bool(false), WebhookDispatched, blockers);
    blockers := Note(Field(receipt, "next_required_proof") == Arr(NEXT_REQUIRED_PROOF), WebhookNextProof, blockers);
    blockers := Note(NamesEveryTerm(Field(receipt, "secret_boundary")), WebhookBoundary, blockers);
    blockers := Note(PublicJobId(judge, Field(receipt, "job_id")) != "", WebhookJobId, blockers);
  }

  /** The id rule is the one place where the two differ: a receipt that the store's validator
      accepts is blocked exactly when its id is no hosted id or looks private. */
  method AcceptedReceiptBlockers(judge: Judge, id: string, receipt: map<string, Value>) returns (blockers: seq<Blocker>)
    requires ValidateWebhook(id, receipt).Fine?
    ensures blockers == [] <==> ValidId(id) && !judge.isPrivate(id)
  {
    AcceptedNamesId(id, receipt);
    hide ValidateWebhook, ValidId;
    IdsAreNotEmpty(id);
    blockers := WebhookBlockers(judge, receipt);
  }

  /** The detectors see a private-looking hosted id in the JSON text of an object that holds
      it: no character of such an id is escaped there. */
  ghost predicate SeesIds(judge: Judge, wire: Wire) {
    forall fields: map<string, Value>, key :: key in fields && HoldsPrivateId(judge, fields[key]) ==>
      wire.isPrivate(wire.spaced(Obj(fields)))
  }

  predicate HoldsPrivateId(judge: Judge, v: Value) { v.Str? && ValidId(v.s) && judge.isPrivate(v.s) }

  /** What the validator leaves open the rest of the store closes: a receipt it stores is
      blocked only for a private-looking id, and with detectors that see ids it never is. */
  method StoredReceiptBlockers(judge: Judge, policy: Policy, wire: Wire, id: string, receipt: map<string, Value>)
    returns (blockers: seq<Blocker>)
    requires StorableReceipt(policy, wire, id, receipt)
    ensures blockers == [] <==> !judge.isPrivate(id)
    ensures SeesIds(judge, wire) ==> blockers == []
  {
    AcceptedNamesId(id, receipt);
    hide ValidateWebhook, ValidId, WebhookWrapper;
    blockers := AcceptedReceiptBlockers(judge, id, receipt);
    assert "job_id" in receipt && receipt["job_id"] == Str(id);
    assert HoldsPrivateId(judge, receipt["job_id"]) <==> judge.isPrivate(id);
  }

  lemma AcceptedNamesId(id: string, receipt: map<string, Value>)
    requires ValidateWebhook(id, receipt).Fine?
    ensures Field(receipt, "job_id") == Str(id)
  {
    hide NamesEveryTerm;
  }

  lemma IdsAreNotEmpty(id: string)
    ensures ValidId(id) ==> id != ""
  {
  }

  function Concatenated(terms: seq<string>): string {
    if terms == [] then "" else terms[0] + Concatenated(terms[1..])
  }

  lemma {:induction false} ConcatenationHolds(before: string, terms: seq<string>, i: nat)
    requires i < |terms|
    ensures Contains(before + Concatenated(terms), terms[i])
    decreases |terms|
  {
    var whole := before + Concatenated(terms);
    assert whole == before + terms[0] + Concatenated(terms[1..]);
    if i == 0 {
      assert OccursAt(whole, terms[0], |before|);
    } else {
      ConcatenationHolds(before + terms[0], terms[1..], i - 1);
    }
  }

  /** A receipt for any id at all. */
  function SampleReceipt(id: string): map<string, Value> {
    map["schema_version" := Str("fusekit.hosted-stripe-webhook.v1"), "action" := Str("payment_webhook"),
        "event_type" := Str("checkout.session.completed"), "accepted" := Bool(true), "payment_applied" := Bool(true),
        "job_id" := Str(id), "payment_status" := Str("paid"), "managed_worker_dispatch_unlocked" := Bool(true),
        "worker_dispatch_sent" := Bool(false), "next_required_proof" := Arr(NEXT_REQUIRED_PROOF),
        "receipt_statement" := Str(""), "secret_boundary" := Str(Concatenated(BOUNDARY_TERMS))]
  }

  /** The validator asks nothing of the form of the id: for every id there is a receipt that
      it accepts, also for those whose receipts are blocked. */
  lemma EveryIdHasAReceipt(id: string)
    ensures ValidateWebhook(id, SampleReceipt(id)).Fine?
  {
    SampleKeys(id);
    SampleBoundary(id);
    hide NamesEveryTerm, WEBHOOK_KEYS, NEXT_REQUIRED_PROOF;
  }

  lemma SampleKeys(id: string)
    ensures SampleReceipt(id).Keys == WEBHOOK_KEYS
  {
    hide NEXT_REQUIRED_PROOF, Concatenated;
  }

  lemma SampleBoundary(id: string)
    ensures NamesEveryTerm(Field(SampleReceipt(id), "secret_boundary"))
  {
    hide Contains, NEXT_REQUIRED_PROOF;
    assert Field(SampleReceipt(id), "secret_boundary") == Str(Concatenated(BOUNDARY_TERMS));
    hide SampleReceipt;
    assert "" + Concatenated(BOUNDARY_TERMS) == Concatenated(BOUNDARY_TERMS);
    forall i | 0 <= i < |BOUNDARY_TERMS| ensures Contains(Concatenated(BOUNDARY_TERMS), BOUNDARY_TERMS[i]) {
      ConcatenationHolds("", BOUNDARY_TERMS, i);
    }
  }

  // ------------------------------------------------------- the payment

  predicate IsSha256Label(s: string) {
    |s| == 71 && s[..7] == "sha256:" && forall i :: 7 <= i < 71 ==> '0' <= s[i] <= '9' || 'a' <= s[i] <= 'f'
  }

  /** A hash is "sha256:" and then 64 lower-case hexadecimal digits. */
  lemma HashesSpelled(s: string)
    ensures IsSha256Label(s) <==>
      |s| >= 7 && s[..7] == "sha256:" && |s[7..]| == 64 && forall c :: c in s[7..] ==> c in "0123456789abcdef"
  {
    HexDigits();
    if |s| >= 7 {
      assert forall i :: 0 <= i < |s[7..]| ==> s[7..][i] == s[i + 7];
      if |s| == 71 && forall c :: c in s[7..] ==> c in "0123456789abcdef" {
        forall i | 7 <= i < 71 ensures '0' <= s[i] <= '9' || 'a' <= s[i] <= 'f' {
          assert s[7..][i - 7] in s[7..];
        }
      }
    }
  }

  lemma HexDigits()
    ensures forall c: char :: c in "0123456789abcdef" <==> '0' <= c <= '9' || 'a' <= c <= 'f'
  {
    var s := "0123456789abcdef";
    assert s[0] == '0' && s[1] == '1' && s[2] == '2' && s[3] == '3' && s[4] == '4' && s[5] == '5' && s[6] == '6';
    assert s[7] == '7' && s[8] == '8' && s[9] == '9' && s[10] == 'a' && s[11] == 'b' && s[12] == 'c';
    assert s[13] == 'd' && s[14] == 'e' && s[15] == 'f';
  }

  predicate HasHash(judge: Judge, fields: map<string, Value>, key: string) {
    IsSha256Label(TextField(fields, key, "", judge.show))
  }

  const METADATA_FIELDS: seq<string> := [
    "job_id", "lane", "github_source_hash", "plan_fingerprint", "stripe_price_id_hash", "price_label_hash"]
  const FIRST_HASH_FIELD := 2

  predicate MetadataField(judge: Judge, metadata: map<string, Value>, i: nat)
    requires i < |METADATA_FIELDS|
  {
    METADATA_FIELDS[i] in metadata && (i >= FIRST_HASH_FIELD ==> HasHash(judge, metadata, METADATA_FIELDS[i]))
  }

  /** The receipt says a whole checkout was completed and paid. */
  predicate CheckoutPaid(judge: Judge, receipt: map<string, Value>) {
    && Field(receipt, "schema_version") == Str("fusekit.hosted-payment.v1")
    && Field(receipt, "provider") == Str("stripe-checkout")
    && Field(receipt, "checkout_session_id").Str? && judge.validSession(Field(receipt, "checkout_session_id").s)
    && PaidCheckoutReceiptReady(receipt)
  }

  /** `_paid_checkout_receipt_ready`. */
  predicate PaidCheckoutReceiptReady(receipt: map<string, Value>) {
    && Field(receipt, "paid") == Bool(true) && Field(receipt, "status") == Str("complete")
    && Field(receipt, "payment_status") == Str("paid") && Field(receipt, "mode") == Str("payment")
  }

  predicate LabelFits(judge: Judge, v: Value) { v.Str? && judge.validLabel(v.s) }

  /** The label is a public one and names exactly the amount that was charged. */
  ghost predicate LabelNamesCharge(judge: Judge, receipt: map<string, Value>) {
    var priceLabel, amount, currency := Field(receipt, "price_label"), Field(receipt, "amount_total"),
      Field(receipt, "currency");
    && LabelFits(judge, priceLabel) && PriceLabel.ReceiptFits(amount, currency)
    && PriceLabel.Names(priceLabel.s, amount.n, currency.s)
  }

  ghost predicate LabelOverflows(judge: Judge, receipt: map<string, Value>) {
    var priceLabel, amount, currency := Field(receipt, "price_label"), Field(receipt, "amount_total"),
      Field(receipt, "currency");
    && LabelFits(judge, priceLabel) && PriceLabel.ReceiptFits(amount, currency)
    && PriceLabel.Overflows(priceLabel.s, currency.s)
  }

  /** What the proof asks of the payment beyond what the job store asks. */
  ghost predicate ChargeProved(judge: Judge, payment: map<string, Value>) {
    var receipt := Mapping(Field(payment, "receipt"));
    var metadata := Mapping(Field(receipt, "metadata"));
    && PyEq(Field(payment, "price_label"), Field(receipt, "price_label"))
    && PyEq(Field(payment, "price_id_hash"), Field(metadata, "stripe_price_id_hash"))
    && CheckoutPaid(judge, receipt) && LabelNamesCharge(judge, receipt)
    && forall i :: 0 <= i < |METADATA_FIELDS| ==> MetadataField(judge, metadata, i)
  }

  /** `isinstance(amount, int) and amount > 0`: a boolean counts as a number here. */
  predicate PositiveInt(v: Value) { (v.Int? && v.n > 0) || v == Bool(true) }

  /** `_payment_blockers`. */
  method PaymentBlockers(judge: Judge, value: Value) returns (r: Outcome<seq<Blocker>>)
    ensures var payment := Mapping(value);
            && (r.Raised? <==> LabelOverflows(judge, Mapping(Field(payment, "receipt"))))
            && (r.Returned? ==> (r.value == [] <==>
                  && Field(payment, "required") == Bool(true) && Field(payment, "status") == Str("paid")
                  && ChargeProved(judge, payment)))
  {
    hide Note, PyEq, PriceLabel.Names, PriceLabel.Overflows, MetadataField;
    var payment := Mapping(value);
    var receipt := Mapping(Field(payment, "receipt"));
    var metadata := Mapping(Field(receipt, "metadata"));
    var blockers := Note(Field(payment, "required") == Bool(true), PaymentNotRequired, []);
    blockers := Note(Field(payment, "status") == Str("paid"), PaymentNotPaid, blockers);
    blockers := Note(PyEq(Field(payment, "price_label"), Field(receipt, "price_label")), PriceLabelDiffers, blockers);
    blockers := Note(PyEq(Field(payment, "price_id_hash"), Field(metadata, "stripe_price_id_hash")), PriceIdDiffers,
      blockers);
    blockers := CheckoutBlockers(judge, receipt, blockers);
    blockers := Note(PositiveInt(Field(receipt, "amount_total")), CheckoutAmount, blockers);
    var currency := Field(receipt, "currency");
    blockers := Note(currency.Str? && |currency.s| == 3, CheckoutCurrency, blockers);
    var priceLabel := Field(receipt, "price_label");
    if !LabelFits(judge, priceLabel) {
      blockers := Note(false, PriceLabelInvalid, blockers);
    } else {
      var matches :- PriceLabel.PriceLabelMatchesReceipt(priceLabel.s, Field(receipt, "amount_total"),
        Field(receipt, "currency"));
      blockers := Note(matches, PriceLabelAmount, blockers);
    }
    blockers := MetadataBlockers(judge, metadata, blockers);
    return Returned(blockers);
  }

  method CheckoutBlockers(judge: Judge, receipt: map<string, Value>, start: seq<Blocker>)
    returns (blockers: seq<Blocker>)
    ensures blockers == [] <==> start == [] && CheckoutPaid(judge, receipt)
  {
    hide Note;
    blockers := Note(Field(receipt, "schema_version") == Str("fusekit.hosted-payment.v1"), PaymentSchema, start);
    blockers := Note(Field(receipt, "provider") == Str("stripe-checkout"), PaymentProvider, blockers);
    var session := Field(receipt, "checkout_session_id");
    blockers := Note(session.Str? && judge.validSession(session.s), SessionId, blockers);
    blockers := Note(Field(receipt, "paid") == Bool(true), SessionNotPaid, blockers);
    blockers := Note(Field(receipt, "status") == Str("complete"), CheckoutNotComplete, blockers);
    blockers := Note(Field(receipt, "payment_status") == Str("paid"), CheckoutNotPaid, blockers);
    blockers := Note(Field(receipt, "mode") == Str("payment"), CheckoutMode, blockers);
  }

  method MetadataBlockers(judge: Judge, metadata: map<string, Value>, start: seq<Blocker>)
    returns (blockers: seq<Blocker>)
    ensures blockers == [] <==>
      start == [] && forall i :: 0 <= i < |METADATA_FIELDS| ==> MetadataField(judge, metadata, i)
  {
    hide HasHash;
    blockers := start;
    for i := 0 to |METADATA_FIELDS|
      invariant blockers == [] <==> start == [] && forall k :: 0 <= k < i ==> MetadataField(judge, metadata, k)
    {
      if METADATA_FIELDS[i] !in metadata {
        blockers := Note(false, MetadataMissing(METADATA_FIELDS[i]), blockers);
      } else if i >= FIRST_HASH_FIELD && !HasHash(judge, metadata, METADATA_FIELDS[i]) {
        blockers := Note(false, MetadataInvalid(METADATA_FIELDS[i]), blockers);
      }
      assert MetadataField(judge, metadata, i) <==>
             METADATA_FIELDS[i] in metadata
               && !(i >= FIRST_HASH_FIELD && !HasHash(judge, metadata, METADATA_FIELDS[i]));
    }
  }

  // ------------------------------------------------------- the dispatch

  predicate DispatchHashes(judge: Judge, binding: map<string, Value>) {
    && HasHash(judge, binding, "plan_fingerprint") && HasHash(judge, binding, "stripe_price_id_hash")
    && HasHash(judge, binding, "price_label_hash")
  }

  /** What the store asks of a dispatch, apart from its binding. */
  predicate DispatchSound(policy: Policy, dispatch: map<string, Value>) {
    && dispatch.Keys == DISPATCH_KEYS
    && Field(dispatch, "schema_version") == Str("fusekit.hosted-worker-dispatch.v1")
    && Field(dispatch, "action") == Str("start")
    && Field(dispatch, "dispatched") == Bool(true) && Field(dispatch, "accepted") == Bool(true)
    && Field(dispatch, "receiver_schema_version") == Str("fusekit.hosted-worker-dispatch-receipt.v1")
    && ValidateIdempotency(Field(dispatch, "idempotency")).Fine?
    && PyEq(Field(dispatch, "cost_guard"), policy.costGuard)
    && Field(dispatch, "secret_boundary") == Str(policy.dispatchBoundary)
  }

  /** `_worker_dispatch_blockers`. */
  method DispatchBlockers(policy: Policy, judge: Judge, value: Value) returns (blockers: seq<Blocker>)
    ensures var dispatch := Mapping(value);
            blockers == [] <==>
              DispatchSound(policy, dispatch) && DispatchHashes(judge, Mapping(Field(dispatch, "dispatch_binding")))
  {
    hide Note, HasHash, PyEq, ValidateIdempotency;
    var dispatch := Mapping(value);
    var binding := Mapping(Field(dispatch, "dispatch_binding"));
    blockers := Note(dispatch.Keys == DISPATCH_KEYS, DispatchShape, []);
    blockers := Note(Field(dispatch, "schema_version") == Str("fusekit.hosted-worker-dispatch.v1"), DispatchSchema,
      blockers);
    blockers := Note(Field(dispatch, "action") == Str("start"), DispatchAction, blockers);
    blockers := Note(Field(dispatch, "dispatched") == Bool(true), DispatchNotSent, blockers);
    blockers := Note(Field(dispatch, "accepted") == Bool(true), DispatchNotAccepted, blockers);
    blockers := Note(Field(dispatch, "receiver_schema_version") == Str("fusekit.hosted-worker-dispatch-receipt.v1"),
      DispatchReceiver, blockers);
    blockers := Note(HasHash(judge, binding, "plan_fingerprint"), DispatchHash("plan_fingerprint"), blockers);
    blockers := Note(HasHash(judge, binding, "stripe_price_id_hash"), DispatchHash("stripe_price_id_hash"), blockers);
    blockers := Note(HasHash(judge, binding, "price_label_hash"), DispatchHash("price_label_hash"), blockers);
    blockers := IdempotencyBlockers(Field(dispatch, "idempotency"), blockers);
    blockers := Note(PyEq(Field(dispatch, "cost_guard"), policy.costGuard), CostGuard, blockers);
    blockers := Note(Field(dispatch, "secret_boundary") == Str(policy.dispatchBoundary), Blocker.DispatchBoundary,
      blockers);
  }

  method IdempotencyBlockers(value: Value, start: seq<Blocker>) returns (blockers: seq<Blocker>)
    ensures blockers == [] <==> start == [] && ValidateIdempotency(value).Fine?
  {
    hide Note, Contains;
    var idempotency := Mapping(value);
    assert !value.Obj? ==> "mode" !in idempotency && "mode" in IDEMPOTENCY_KEYS;
    blockers := Note(idempotency.Keys == IDEMPOTENCY_KEYS, IdempotencyShape, start);
    blockers := Note(Field(idempotency, "mode") == Str("dispatch-state-dir"), IdempotencyMode, blockers);
    blockers := Note(Field(idempotency, "durable") == Bool(true), IdempotencyNotDurable, blockers);
    blockers := Note(Field(idempotency, "scope") == Str("worker deployment"), IdempotencyScope, blockers);
    var proof := Field(idempotency, "proof");
    blockers := Note(proof.Str? && Contains(proof.s, "before worker spawn"), IdempotencyProof, blockers);
  }

  // ------------------------------------------------------- the start response

  /** What the start response alone must show. */
  ghost predicate StartProved(policy: Policy, judge: Judge, response: map<string, Value>) {
    var payment := Mapping(Field(response, "payment"));
    var dispatch := Mapping(Field(response, "worker_dispatch"));
    && Field(response, "schema_version") == Str("fusekit.hosted-job.v1")
    && Field(response, "launch_lane") == Str(LANE)
    && Field(response, "status") == Str("waiting_for_provider_gates")
    && PublicJobId(judge, Field(response, "job_id")) != ""
    && Field(payment, "required") == Bool(true) && Field(payment, "status") == Str("paid")
      && ChargeProved(judge, payment)
    && DispatchSound(policy, dispatch) && DispatchHashes(judge, Mapping(Field(dispatch, "dispatch_binding")))
    && Field(Mapping(Field(response, "action_receipt")), "action") == Str("start")
  }

  function ReceiptOf(response: map<string, Value>): map<string, Value> {
    Mapping(Field(Mapping(Field(response, "payment")), "receipt"))
  }

  function BindingOf(response: map<string, Value>): map<string, Value> {
    Mapping(Field(Mapping(Field(response, "worker_dispatch")), "dispatch_binding"))
  }

  /** `_start_action_response_blockers`. */
  method StartBlockers(policy: Policy, judge: Judge, response: map<string, Value>) returns (r: Outcome<seq<Blocker>>)
    ensures r.Raised? <==> LabelOverflows(judge, ReceiptOf(response))
    ensures r.Returned? ==> (r.value == [] <==> StartProved(policy, judge, response))
  {
    hide Note, PublicJobId, ChargeProved, DispatchSound, DispatchHashes, LabelOverflows;
    var blockers := Note(Field(response, "schema_version") == Str("fusekit.hosted-job.v1"), StartSchema, []);
    blockers := Note(Field(response, "launch_lane") == Str(LANE), StartLane, blockers);
    blockers := Note(Field(response, "status") == Str("waiting_for_provider_gates"), StartStatus, blockers);
    blockers := Note(PublicJobId(judge, Field(response, "job_id")) != "", StartJobId, blockers);
    var payment :- PaymentBlockers(judge, Field(response, "payment"));
    var dispatch := DispatchBlockers(policy, judge, Field(response, "worker_dispatch"));
    blockers := blockers + payment + dispatch;
    blockers := Note(Field(Mapping(Field(response, "action_receipt")), "action") == Str("start"), StartAction,
      blockers);
    return Returned(blockers);
  }

  // ------------------------------------------------------- the proof

  ghost predicate NoRepeats(blockers: seq<Blocker>) {
    forall i, j :: 0 <= i < j < |blockers| ==> blockers[i] != blockers[j]
  }

  /** `_unique`: the first occurrence of every blocker, in order. */
  method Unique(values: seq<Blocker>) returns (result: seq<Blocker>)
    ensures NoRepeats(result)
    ensures forall b :: b in result <==> b in values
    ensures result == [] <==> values == []
  {
    var seen: set<Blocker> := {};
    result := [];
    for i := 0 to |values|
      invariant forall b :: b in seen <==> b in values[..i]
      invariant forall b :: b in result <==> b in seen
      invariant NoRepeats(result)
    {
      assert values[..i + 1] == values[..i] + [values[i]];
      if values[i] !in seen {
        seen := seen + {values[i]};
        result := result + [values[i]];
      }
    }
    assert values[..|values|] == values;
    assert values != [] ==> values[0] in result;
    assert result != [] ==> result[0] in values;
  }

  datatype Proof = Proof(
    ready: bool, blockers: seq<Blocker>, jobId: string, paymentStatus: string, sessionPaid: bool,
    webhookApplied: bool, dispatchAccepted: bool, requiresPaid: bool, commit: string)

  predicate CommitOk(commit: string) {
    commit == "" || (|commit| == 40 && forall i :: 0 <= i < 40 ==> '0' <= commit[i] <= '9' || 'a' <= commit[i] <= 'f')
  }

  /** An expected commit is absent, or 40 lower-case hexadecimal digits. */
  lemma CommitsSpelled(commit: string)
    ensures CommitOk(commit) <==>
      commit == "" || (|commit| == 40 && forall c :: c in commit ==> c in "0123456789abcdef")
  {
    HexDigits();
    if |commit| == 40 && forall c :: c in commit ==> c in "0123456789abcdef" {
      forall i | 0 <= i < 40 ensures '0' <= commit[i] <= '9' || 'a' <= commit[i] <= 'f' {
        assert commit[i] in commit;
      }
    }
  }

  /** `_worker_dispatch_ready`. */
  predicate DispatchReady(policy: Policy, dispatch: map<string, Value>) {
    var idempotency := Mapping(Field(dispatch, "idempotency"));
    && Field(dispatch, "dispatched") == Bool(true) && Field(dispatch, "accepted") == Bool(true)
    && Field(dispatch, "action") == Str("start") && PyEq(Field(dispatch, "cost_guard"), policy.costGuard)
    && Field(idempotency, "durable") == Bool(true) && Field(idempotency, "mode") == Str("dispatch-state-dir")
  }

  /** The binding, the receipt and its metadata all speak of one job in the managed lane. */
  predicate BoundTo(jobId: string, response: map<string, Value>) {
    var receipt, binding := ReceiptOf(response), BindingOf(response);
    var metadata := Mapping(Field(receipt, "metadata"));
    && Field(binding, "job_id") == Str(jobId) && Field(binding, "lane") == Str(LANE)
    && Field(binding, "payment_status") == Str("paid")
    && Field(receipt, "client_reference_id") == Str(jobId)
    && Field(metadata, "job_id") == Str(jobId) && Field(metadata, "lane") == Str(LANE)
    && SameHashes(binding, metadata)
  }

  method BindingBlockers(jobId: string, response: map<string, Value>, start: seq<Blocker>)
    returns (blockers: seq<Blocker>)
    ensures blockers == [] <==> start == [] && BoundTo(jobId, response)
  {
    hide Note, PyEq, ReceiptOf, BindingOf;
    var receipt, binding := ReceiptOf(response), BindingOf(response);
    blockers := Note(Field(binding, "job_id") == Str(jobId), DispatchJobId, start);
    blockers := Note(Field(binding, "lane") == Str(LANE), DispatchLane, blockers);
    blockers := Note(Field(binding, "payment_status") == Str("paid"), DispatchNotPaid, blockers);
    blockers := Note(Field(receipt, "client_reference_id") == Str(jobId), ClientReference, blockers);
    var metadata := Mapping(Field(receipt, "metadata"));
    blockers := Note(Field(metadata, "job_id") == Str(jobId), MetadataJob, blockers);
    blockers := Note(Field(metadata, "lane") == Str(LANE), MetadataLane, blockers);
    blockers := Note(PyEq(Field(binding, "plan_fingerprint"), Field(metadata, "plan_fingerprint")),
      BindingMismatch("plan_fingerprint"), blockers);
    blockers := Note(PyEq(Field(binding, "stripe_price_id_hash"), Field(metadata, "stripe_price_id_hash")),
      BindingMismatch("stripe_price_id_hash"), blockers);
    blockers := Note(PyEq(Field(binding, "price_label_hash"), Field(metadata, "price_label_hash")),
      BindingMismatch("price_label_hash"), blockers);
  }

  /** The job store accepts both artifacts for this job, once a job token, which it never
      stores, is taken out of the response. */
  ghost predicate StoreAccepts(policy: Policy, id: string, receipt: map<string, Value>, response: map<string, Value>) {
    ValidateWebhook(id, receipt).Fine? && ValidateStart(policy, id, response - {"job_token"}).Fine?
  }

  lemma PaymentAgrees(id: string, payment: Value)
    ensures ValidatePayment(id, payment).Fine? <==>
            && Field(Mapping(payment), "required") == Bool(true) && Field(Mapping(payment), "status") == Str("paid")
            && Field(Mapping(Field(Mapping(payment), "receipt")), "client_reference_id") == Str(id)
            && Field(MetadataOf(payment), "job_id") == Str(id) && Field(MetadataOf(payment), "lane") == Str(LANE)
  {
  }

  lemma DispatchAgrees(policy: Policy, id: string, value: Value, metadata: map<string, Value>)
    ensures ValidateDispatch(policy, id, value, metadata).Fine? <==>
            && DispatchSound(policy, Mapping(value))
            && var binding := Mapping(Field(Mapping(value), "dispatch_binding"));
               && Field(binding, "job_id") == Str(id) && Field(binding, "lane") == Str(LANE)
               && Field(binding, "payment_status") == Str("paid") && SameHashes(binding, metadata)
  {
    hide ValidateIdempotency, SameHashes, PyEq;
    assert Field(Mapping(Field(Mapping(value), "dispatch_binding")), "lane") == Str(LANE) ==>
      Field(Mapping(value), "dispatch_binding").Obj?;
    assert Field(Mapping(value), "action") == Str("start") ==> value.Obj?;
  }

  /** Taking the job token out changes no other member. */
  lemma TokenAside(response: map<string, Value>, key: string)
    requires key != "job_token"
    ensures Field(response - {"job_token"}, key) == Field(response, key)
  {
  }

  lemma StartAgrees(policy: Policy, judge: Judge, response: map<string, Value>, id: string)
    requires PublicJobId(judge, Field(response, "job_id")) == id != ""
    ensures StartProved(policy, judge, response) && BoundTo(id, response) <==>
            && ValidateStart(policy, id, response - {"job_token"}).Fine?
            && ChargeProved(judge, Mapping(Field(response, "payment"))) && DispatchHashes(judge, BindingOf(response))
  {
    hide ChargeProved, DispatchHashes, DispatchSound, SameHashes, ValidId, ValidatePayment, ValidateDispatch;
    PaymentAgrees(id, Field(response, "payment"));
    DispatchAgrees(policy, id, Field(response, "worker_dispatch"), MetadataOf(Field(response, "payment")));
    TokenAside(response, "schema_version");
    TokenAside(response, "job_id");
    TokenAside(response, "launch_lane");
    TokenAside(response, "status");
    TokenAside(response, "payment");
    TokenAside(response, "action_receipt");
    TokenAside(response, "worker_dispatch");
  }

  /** The two sets of rules agree on which job they accept. */
  lemma ReadyIsAgreement(policy: Policy, judge: Judge, receipt: map<string, Value>, response: map<string, Value>)
    ensures
      var webhookJob, startJob := PublicJobId(judge, Field(receipt, "job_id")),
        PublicJobId(judge, Field(response, "job_id"));
      var jobId := if startJob != "" then startJob else webhookJob;
      && (PublicJobId(judge, Str(jobId)) != "" && StoreAccepts(policy, jobId, receipt, response)
          && ChargeProved(judge, Mapping(Field(response, "payment"))) && DispatchHashes(judge, BindingOf(response))
          <==>
          webhookJob != "" && startJob == webhookJob && ValidateWebhook(webhookJob, receipt).Fine?
          && StartProved(policy, judge, response) && BoundTo(jobId, response))
  {
    hide ChargeProved, DispatchHashes, BoundTo, ValidId, BindingOf, ValidateWebhook, ValidateStart, StartProved;
    var webhookJob, startJob := PublicJobId(judge, Field(receipt, "job_id")),
      PublicJobId(judge, Field(response, "job_id"));
    var jobId := if startJob != "" then startJob else webhookJob;
    AcceptedNamesItsJob(policy, jobId, receipt, response);
    if jobId != "" && startJob == jobId {
      StartAgrees(policy, judge, response, jobId);
    }
    StartNamesItsJob(policy, judge, response);
  }

  lemma StartNamesItsJob(policy: Policy, judge: Judge, response: map<string, Value>)
    ensures StartProved(policy, judge, response) ==> PublicJobId(judge, Field(response, "job_id")) != ""
  {
  }

  lemma AcceptedNamesItsJob(policy: Policy, id: string, receipt: map<string, Value>, response: map<string, Value>)
    ensures ValidateWebhook(id, receipt).Fine? ==> Field(receipt, "job_id") == Str(id)
    ensures ValidateStart(policy, id, response - {"job_token"}).Fine? ==> Field(response, "job_id") == Str(id)
  {
    hide NamesEveryTerm, ValidatePayment, ValidateDispatch;
    TokenAside(response, "job_id");
  }

  /** Both artifacts speak of one public job, the job store accepts them for it, the charge
      is proved and the hashes are well formed. */
  ghost predicate Agreed(policy: Policy, judge: Judge, id: string, receipt: map<string, Value>,
      response: map<string, Value>) {
    && PublicJobId(judge, Str(id)) != "" && StoreAccepts(policy, id, receipt, response)
    && ChargeProved(judge, Mapping(Field(response, "payment"))) && DispatchHashes(judge, BindingOf(response))
  }

  /** The job a proof is about. */
  function SharedJob(judge: Judge, receipt: map<string, Value>, response: map<string, Value>): string {
    var startJob := PublicJobId(judge, Field(response, "job_id"));
    if startJob != "" then startJob else PublicJobId(judge, Field(receipt, "job_id"))
  }

  /** All the blockers, and the job the proof is about. */
  method CollectBlockers(policy: Policy, judge: Judge, receipt: map<string, Value>, response: map<string, Value>)
    returns (r: Outcome<seq<Blocker>>, jobId: string)
    ensures jobId == SharedJob(judge, receipt, response)
    ensures r.Raised? <==> LabelOverflows(judge, ReceiptOf(response))
    ensures r.Returned? ==> (r.value == [] <==> Agreed(policy, judge, jobId, receipt, response))
  {
    hide StartProved, BoundTo, ReceiptOf, BindingOf, LabelOverflows, PublicJobId, ValidateWebhook, StoreAccepts,
      ChargeProved, DispatchHashes;
    var webhookJob := PublicJobId(judge, Field(receipt, "job_id"));
    var startJob := PublicJobId(judge, Field(response, "job_id"));
    jobId := if startJob != "" then startJob else webhookJob;
    ReadyIsAgreement(policy, judge, receipt, response);
    StartNamesItsJob(policy, judge, response);
    var blockers := WebhookBlockers(judge, receipt);
    var start := StartBlockers(policy, judge, response);
    if start.Raised? {
      return start, jobId;
    }
    blockers := blockers + start.value;
    blockers := Note(webhookJob == "" || startJob == "" || webhookJob == startJob, JobIdMismatch, blockers);
    blockers := BindingBlockers(jobId, response, blockers);
    r := Returned(blockers);
  }

  /** What the two sets of rules settle, the flags of the proof repeat. */
  lemma AgreedFlags(policy: Policy, judge: Judge, id: string, receipt: map<string, Value>, response: map<string, Value>)
    requires Agreed(policy, judge, id, receipt, response)
    ensures Field(receipt, "payment_applied") == Bool(true)
    ensures Field(Mapping(Field(response, "payment")), "status") == Str("paid")
    ensures PaidCheckoutReceiptReady(ReceiptOf(response))
    ensures DispatchReady(policy, Mapping(Field(response, "worker_dispatch")))
    ensures Field(BindingOf(response), "payment_status") == Str("paid")
  {
    AcceptedDispatch(policy, id, response);
    assert ValidateWebhook(id, receipt).Fine?;
    hide ValidId, DispatchHashes, PyEq, ValidateStart, LabelNamesCharge, MetadataField, NamesEveryTerm;
  }

  lemma AcceptedDispatch(policy: Policy, id: string, response: map<string, Value>)
    requires ValidateStart(policy, id, response - {"job_token"}).Fine?
    ensures DispatchReady(policy, Mapping(Field(response, "worker_dispatch")))
    ensures Field(BindingOf(response), "payment_status") == Str("paid")
    ensures Field(Mapping(Field(response, "payment")), "status") == Str("paid")
  {
    TokenAside(response, "payment");
    TokenAside(response, "worker_dispatch");
    hide PyEq, SameHashes;
    DispatchAgrees(policy, id, Field(response, "worker_dispatch"), MetadataOf(Field(response, "payment")));
    hide ValidateDispatch;
    PaymentAgrees(id, Field(response, "payment"));
  }

  /** What lies at the end of a path of keys; nothing where the path breaks off. */
  function AtPath(fields: map<string, Value>, path: seq<string>): Value
    requires path != []
    decreases |path|
  {
    if path[0] !in fields then Null
    else if |path| == 1 then fields[path[0]]
    else if fields[path[0]].Obj? then AtPath(fields[path[0]].fields, path[1..])
    else Null
  }

  /** What a proof, ready or not, tells of payment and dispatch, read off the artifacts. */
  predicate TellsTheFacts(proof: Proof, policy: Policy, receipt: map<string, Value>, response: map<string, Value>) {
    && (proof.paymentStatus == if AtPath(response, ["payment", "status"]) == Str("paid") then "paid" else "")
    && (proof.sessionPaid <==>
          && AtPath(response, ["payment", "receipt", "paid"]) == Bool(true)
          && AtPath(response, ["payment", "receipt", "status"]) == Str("complete")
          && AtPath(response, ["payment", "receipt", "payment_status"]) == Str("paid")
          && AtPath(response, ["payment", "receipt", "mode"]) == Str("payment"))
    && (proof.webhookApplied <==> AtPath(receipt, ["payment_applied"]) == Bool(true))
    && (proof.dispatchAccepted <==>
          && AtPath(response, ["worker_dispatch", "dispatched"]) == Bool(true)
          && AtPath(response, ["worker_dispatch", "accepted"]) == Bool(true)
          && AtPath(response, ["worker_dispatch", "action"]) == Str("start")
          && PyEq(AtPath(response, ["worker_dispatch", "cost_guard"]), policy.costGuard)
          && AtPath(response, ["worker_dispatch", "idempotency", "durable"]) == Bool(true)
          && AtPath(response, ["worker_dispatch", "idempotency", "mode"]) == Str("dispatch-state-dir"))
    && (proof.requiresPaid <==>
          && AtPath(response, ["worker_dispatch", "dispatch_binding", "payment_status"]) == Str("paid")
          && AtPath(response, ["payment", "status"]) == Str("paid")
          && AtPath(response, ["payment", "receipt", "paid"]) == Bool(true))
  }

  lemma OneKey(fields: map<string, Value>, a: string)
    ensures AtPath(fields, [a]) == Field(fields, a)
  {
  }

  lemma TwoKeys(fields: map<string, Value>, a: string, b: string)
    ensures AtPath(fields, [a, b]) == Field(Mapping(Field(fields, a)), b)
  {
    assert [a, b][1..] == [b];
    OneKey(Mapping(Field(fields, a)), b);
  }

  lemma ThreeKeys(fields: map<string, Value>, a: string, b: string, c: string)
    ensures AtPath(fields, [a, b, c]) == Field(Mapping(Field(Mapping(Field(fields, a)), b)), c)
  {
    assert [a, b, c][1..] == [b, c];
    TwoKeys(Mapping(Field(fields, a)), b, c);
  }

  lemma FactsByPath(policy: Policy, receipt: map<string, Value>, response: map<string, Value>)
    ensures AtPath(response, ["payment", "status"]) == Field(Mapping(Field(response, "payment")), "status")
    ensures PaidCheckoutReceiptReady(ReceiptOf(response)) <==>
      && AtPath(response, ["payment", "receipt", "paid"]) == Bool(true)
      && AtPath(response, ["payment", "receipt", "status"]) == Str("complete")
      && AtPath(response, ["payment", "receipt", "payment_status"]) == Str("paid")
      && AtPath(response, ["payment", "receipt", "mode"]) == Str("payment")
    ensures AtPath(receipt, ["payment_applied"]) == Field(receipt, "payment_applied")
    ensures DispatchReady(policy, Mapping(Field(response, "worker_dispatch"))) <==>
      && AtPath(response, ["worker_dispatch", "dispatched"]) == Bool(true)
      && AtPath(response, ["worker_dispatch", "accepted"]) == Bool(true)
      && AtPath(response, ["worker_dispatch", "action"]) == Str("start")
      && PyEq(AtPath(response, ["worker_dispatch", "cost_guard"]), policy.costGuard)
      && AtPath(response, ["worker_dispatch", "idempotency", "durable"]) == Bool(true)
      && AtPath(response, ["worker_dispatch", "idempotency", "mode"]) == Str("dispatch-state-dir")
    ensures AtPath(response, ["worker_dispatch", "dispatch_binding", "payment_status"])
         == Field(BindingOf(response), "payment_status")
    ensures AtPath(response, ["payment", "receipt", "paid"]) == Field(ReceiptOf(response), "paid")
  {
    OneKey(receipt, "payment_applied");
    TwoKeys(response, "payment", "status");
    ThreeKeys(response, "payment", "receipt", "paid");
    ThreeKeys(response, "payment", "receipt", "status");
    ThreeKeys(response, "payment", "receipt", "payment_status");
    ThreeKeys(response, "payment", "receipt", "mode");
    TwoKeys(response, "worker_dispatch", "dispatched");
    TwoKeys(response, "worker_dispatch", "accepted");
    TwoKeys(response, "worker_dispatch", "action");
    TwoKeys(response, "worker_dispatch", "cost_guard");
    ThreeKeys(response, "worker_dispatch", "idempotency", "durable");
    ThreeKeys(response, "worker_dispatch", "idempotency", "mode");
    ThreeKeys(response, "worker_dispatch", "dispatch_binding", "payment_status");
    hide AtPath, Field, Mapping, PyEq;
  }

  /** The proof with these blockers. */
  method WithFacts(policy: Policy, receipt: map<string, Value>, response: map<string, Value>, blockers: seq<Blocker>,
      jobId: string, commit: string)
    returns (proof: Proof)
    ensures proof.ready == (blockers == []) && proof.blockers == blockers && proof.jobId == jobId
    ensures TellsTheFacts(proof, policy, receipt, response)
    ensures proof.paymentStatus == "paid" <==> Field(Mapping(Field(response, "payment")), "status") == Str("paid")
    ensures proof.sessionPaid <==> PaidCheckoutReceiptReady(ReceiptOf(response))
    ensures proof.webhookApplied <==> Field(receipt, "payment_applied") == Bool(true)
    ensures proof.dispatchAccepted <==> DispatchReady(policy, Mapping(Field(response, "worker_dispatch")))
    ensures proof.requiresPaid <==>
      && Field(BindingOf(response), "payment_status") == Str("paid")
      && Field(Mapping(Field(response, "payment")), "status") == Str("paid")
      && Field(ReceiptOf(response), "paid") == Bool(true)
  {
    FactsByPath(policy, receipt, response);
    hide AtPath, PyEq, Mapping, Field, ReceiptOf, BindingOf, PaidCheckoutReceiptReady, DispatchReady;
    var payment := Mapping(Field(response, "payment"));
    proof := Proof(
      blockers == [], blockers, jobId, if Field(payment, "status") == Str("paid") then "paid" else "",
      PaidCheckoutReceiptReady(ReceiptOf(response)), Field(receipt, "payment_applied") == Bool(true),
      DispatchReady(policy, Mapping(Field(response, "worker_dispatch"))),
      Field(BindingOf(response), "payment_status") == Str("paid") && Field(payment, "status") == Str("paid")
      && Field(ReceiptOf(response), "paid") == Bool(true), commit);
  }

  /** `build_hosted_managed_live_checkout_proof`: ready exactly when the job store accepts
      both artifacts for one public job and, on top of that, the charge is proved (the label
      names the amount) and the hashes are well formed.  A ready proof claims nothing that
      is not so. */
  method BuildProof(policy: Policy, judge: Judge, receipt: map<string, Value>, response: map<string, Value>,
                    commit: string, leaks: Proof -> bool)
    returns (r: Outcome<Proof>)
    ensures LabelOverflows(judge, ReceiptOf(response)) ==> r.Raised?
    ensures !LabelOverflows(judge, ReceiptOf(response)) && (forall p :: !leaks(p)) ==> r.Returned?
    ensures r.Returned? ==>
      var proof := r.value;
      && proof.jobId == SharedJob(judge, receipt, response)
      && (proof.ready <==> Agreed(policy, judge, proof.jobId, receipt, response) && CommitOk(commit))
      && (proof.ready <==> proof.blockers == []) && NoRepeats(proof.blockers)
      && (proof.ready ==> proof.paymentStatus == "paid" && proof.sessionPaid && proof.webhookApplied
                          && proof.dispatchAccepted && proof.requiresPaid)
      && TellsTheFacts(proof, policy, receipt, response)
  {
    hide TellsTheFacts;
    hide Agreed, SharedJob, LabelOverflows, ReceiptOf, BindingOf, CommitOk, PaidCheckoutReceiptReady, DispatchReady,
      Mapping, Field, NoRepeats, Note;
    var collected, jobId := CollectBlockers(policy, judge, receipt, response);
    var blockers :- collected;
    blockers := Note(CommitOk(commit), CommitShaInvalid, blockers);
    blockers := Unique(blockers);
    var proof := WithFacts(policy, receipt, response, blockers, jobId, commit);
    if blockers == [] {
      AgreedFlags(policy, judge, jobId, receipt, response);
      PaidIsPaid(ReceiptOf(response));
    }
    if leaks(proof) {
      return Raised(FuseKitFault("contains secret text"));
    }
    return Returned(proof);
  }

  lemma PaidIsPaid(receipt: map<string, Value>)
    requires PaidCheckoutReceiptReady(receipt)
    ensures Field(receipt, "paid") == Bool(true)
  {
  }
}
