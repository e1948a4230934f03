/** The trusted infrastructure service: the mandate policy, the oracle checks and the two idempotency
    maps. A call is split where the program awaits, so that calls can interleave between its stages. */
module TrustService {
  import opened Wrappers
  import opened Domain
  import opened Ledger

  datatype SupplierEntry = SupplierEntry(agentId: AgentId, active: bool, bankBindingHash: Digest)

  datatype TrustError =
    | SupplierAbsent
    | SupplierInactive
    | PolicyDenied
    | ApprovalHashMismatch
    | OracleRejected
    | KillSwitchActive
    | AppendRaised

  /** The fixed surroundings: the registry, the kill switch and the two hash functions. */
  datatype Controls = Controls(
    suppliers: seq<SupplierEntry>, killSwitch: bool,
    intentHash: PurchaseIntent -> Digest, chainHash: Preimage -> Digest)

  /** An idempotency key `deal:{id}:payment-draft`, named by its deal. */
  type Key = Id

  datatype Call = Call(deal: Deal, quote: Quote, snapshot: ApprovalSnapshot, decision: HumanDecision, key: Key)

  datatype Artifacts = Artifacts(
    purchaseIntent: PurchaseIntent, anchor: Anchor, oracle: OracleVerification,
    paymentDraft: PaymentDraft, policy: ControlDecision, fraud: ControlDecision)

  /** The service's state with the ledger behind it; `nextId` is the supply of unused UUIDs. */
  datatype TrustState = TrustState(
    rows: seq<Anchor>, payments: map<Key, PaymentDraft>, purchases: map<Key, Artifacts>, nextId: Id)

  /******* Policy *******/

  function FindSupplier(suppliers: seq<SupplierEntry>, agentId: AgentId): Result<SupplierEntry, TrustError> {
    if suppliers == [] then Err(SupplierAbsent)
    else if suppliers[0].agentId != agentId then FindSupplier(suppliers[1..], agentId)
    else if suppliers[0].active then Ok(suppliers[0])
    else Err(SupplierInactive)
  }

  lemma {:induction false} FoundSupplierIsActive(suppliers: seq<SupplierEntry>, agentId: AgentId)
    ensures FindSupplier(suppliers, agentId).Ok? ==>
              var s := FindSupplier(suppliers, agentId).value; s in suppliers && s.agentId == agentId && s.active
    ensures FindSupplier(suppliers, agentId) == Err(SupplierAbsent) <==>
              forall s :: s in suppliers ==> s.agentId != agentId
    ensures FindSupplier(suppliers, agentId).Err? ==>
              FindSupplier(suppliers, agentId).error in {SupplierAbsent, SupplierInactive}
  {
    if suppliers != [] {
      FoundSupplierIsActive(suppliers[1..], agentId);
      assert suppliers == [suppliers[0]] + suppliers[1..];
    }
  }

  function RecipientBinding(c: Controls, agentId: AgentId): Result<Digest, TrustError> {
    match FindSupplier(c.suppliers, agentId)
    case Ok(supplier) => Ok(supplier.bankBindingHash)
    case Err(error) => Err(error)
  }

  predicate Allowed(deal: Deal, operation: Action, now: Time) {
    && deal.mandate.Permits(operation, now)
    && deal.intent.currency == deal.mandate.currency
    && deal.intent.product.category in deal.mandate.allowedCategories
  }

  /** One reason for each violated rule, none when the operation is allowed. */
  method CheckMandate(deal: Deal, operation: Action, now: Time) returns (d: ControlDecision)
    ensures d == MandateDecision(deal, operation, now)
    ensures d.allow <==> Allowed(deal, operation, now)
  {
    var reasons: seq<string> := [];
    if !deal.mandate.Permits(operation, now) { reasons := reasons + ["operation"]; }
    if deal.intent.currency != deal.mandate.currency { reasons := reasons + ["currency"]; }
    if deal.intent.product.category !in deal.mandate.allowedCategories { reasons := reasons + ["category"]; }
    d := ControlDecision(reasons == [], operation, reasons);
  }

  function MandateDecision(deal: Deal, operation: Action, now: Time): (d: ControlDecision)
    ensures d.allow <==> Allowed(deal, operation, now)
  {
    var reasons :=
      (if !deal.mandate.Permits(operation, now) then ["operation"] else [])
      + (if deal.intent.currency != deal.mandate.currency then ["currency"] else [])
      + (if deal.intent.product.category !in deal.mandate.allowedCategories then ["category"] else []);
    ControlDecision(reasons == [], operation, reasons)
  }

  const OPERATIONS: seq<Action> := [CreatePurchaseIntent, AnchorIntent, OracleProcess, CreatePaymentDraft]

  function Policies(deal: Deal, now: Time): seq<ControlDecision> {
    seq(|OPERATIONS|, i requires 0 <= i < |OPERATIONS| => MandateDecision(deal, OPERATIONS[i], now))
  }

  predicate AllAllow(policies: seq<ControlDecision>) {
    forall i :: 0 <= i < |policies| ==> policies[i].allow
  }

  /** The mandate permits the whole of a purchase: its intent, the anchoring, the oracle and the draft. */
  predicate MayPurchase(intent: Intent, mandate: Mandate, now: Time) {
    && mandate.Permits(CreatePurchaseIntent, now) && mandate.Permits(AnchorIntent, now)
    && mandate.Permits(OracleProcess, now) && mandate.Permits(CreatePaymentDraft, now)
    && intent.currency == mandate.currency
    && intent.product.category in mandate.allowedCategories
  }

  /** There was an instant at which it did. */
  ghost predicate Authorized(intent: Intent, mandate: Mandate) {
    exists now :: MayPurchase(intent, mandate, now)
  }

  /** The policy of a purchase allows it exactly when the mandate permits all of its four operations. */
  lemma PoliciesExact(deal: Deal, now: Time)
    ensures AllAllow(Policies(deal, now)) <==> MayPurchase(deal.intent, deal.mandate, now)
  {
    var p := Policies(deal, now);
    assert p[0] == MandateDecision(deal, CreatePurchaseIntent, now) && p[1] == MandateDecision(deal, AnchorIntent, now);
    assert p[2] == MandateDecision(deal, OracleProcess, now) && p[3] == MandateDecision(deal, CreatePaymentDraft, now);
  }

  /******* The stages of a call *******/

  function IntentOf(call: Call, binding: Digest, intentId: Id): PurchaseIntent {
    PurchaseIntent(intentId, call.deal.dealId, call.snapshot.snapshotHash, call.deal.mandate.agentId,
                   call.quote.supplierId, call.quote.TotalCost(), call.quote.currency, binding)
  }

  function ChecksOf(c: Controls, rows: seq<Anchor>, call: Call, policies: seq<ControlDecision>,
                    supplier: SupplierEntry, intent: PurchaseIntent, anchor: Anchor): Checks {
    Checks(
      anchorIntegrity := LedgerIntact(c.chainHash, call.deal.dealId, rows),
      intentHash := anchor.payloadHash == c.intentHash(intent),
      approvalHash := intent.approvedSnapshotHash == call.snapshot.snapshotHash,
      buyerActive := true,
      supplierActive := supplier.active,
      mandate := AllAllow(policies),
      recipientBinding := intent.recipientBindingHash == supplier.bankBindingHash,
      amount := intent.amount <= call.deal.mandate.maxTotal,
      currency := intent.currency == call.deal.mandate.currency)
  }

  predicate LedgerIntact(hash: Preimage -> Digest, dealId: Id, rows: seq<Anchor>) {
    var chain := ChainOf(rows, dealId);
    forall i :: 0 <= i < |chain| ==> LinkAt(hash, dealId, chain, i)
  }

  function FailedChecks(k: Checks): seq<string> {
    (if k.anchorIntegrity then [] else ["anchor_integrity"]) + (if k.intentHash then [] else ["intent_hash"])
    + (if k.approvalHash then [] else ["approval_hash"]) + (if k.buyerActive then [] else ["buyer_active"])
    + (if k.supplierActive then [] else ["supplier_active"]) + (if k.mandate then [] else ["mandate"])
    + (if k.recipientBinding then [] else ["recipient_binding"]) + (if k.amount then [] else ["amount"])
    + (if k.currency then [] else ["currency"])
  }

  function FraudDecision(k: Checks): ControlDecision {
    ControlDecision(k.All(), OtherAction("oracle_verify"), FailedChecks(k))
  }

  /** The oracle's record freezes a purchase iff it lists a failed check. */
  lemma FrozenWithReasons(k: Checks)
    ensures FraudDecision(k).allow <==> FraudDecision(k).reasons == []
    ensures k.All() <==> FailedChecks(k) == []
  {
  }

  function DraftOf(call: Call, binding: Digest, draftId: Id, orderId: Id): PaymentDraft {
    PaymentDraft(draftId, orderId, call.quote.TotalCost(), call.quote.currency, call.quote.supplierId,
                 AwaitingCustomerSignature, binding)
  }

  /** Where a call stands between two awaits. */
  datatype Flight =
    | Entered(call: Call)
    | Prepared(call: Call, policies: seq<ControlDecision>, supplier: SupplierEntry, intent: PurchaseIntent)
    | Anchored(call: Call, policies: seq<ControlDecision>, supplier: SupplierEntry, intent: PurchaseIntent,
        anchor: Anchor)
    | Cleared(call: Call, policies: seq<ControlDecision>, supplier: SupplierEntry, intent: PurchaseIntent,
        anchor: Anchor, oracle: OracleVerification, fraud: ControlDecision)
    | Drafted(call: Call, result: Artifacts)
    | Returned(call: Call, result: Artifacts)
    | Raised(call: Call, error: TrustError)

  predicate Ended(f: Flight) {
    f.Returned? || f.Raised?
  }

  /** The cache lookup under the payment lock and everything up to the append. */
  function Enter(c: Controls, ts: TrustState, call: Call, now: Time): (TrustState, Flight) {
    if call.key in ts.purchases then (ts, Returned(call, ts.purchases[call.key]))
    else if !AllAllow(Policies(call.deal, now)) then (ts, Raised(call, PolicyDenied))
    else if call.decision.snapshotHash != call.snapshot.snapshotHash then (ts, Raised(call, ApprovalHashMismatch))
    else
      match FindSupplier(c.suppliers, call.quote.supplierId)
      case Err(error) => (ts, Raised(call, error))
      case Ok(supplier) =>
        (ts.(nextId := ts.nextId + 1),
         Prepared(call, Policies(call.deal, now), supplier, IntentOf(call, supplier.bankBindingHash, ts.nextId)))
  }

  /** A call that is not answered from the cache is denied by policy exactly when the mandate does not permit
      one of its operations, its currency or its category, and then changes nothing; it gets past its entry
      exactly when it is permitted, was approved under the snapshot's hash and buys from an active supplier. */
  lemma EnterIff(c: Controls, ts: TrustState, call: Call, now: Time)
    requires call.key !in ts.purchases
    ensures var next := Enter(c, ts, call, now);
            && (next.1 == Raised(call, PolicyDenied) <==> !MayPurchase(call.deal.intent, call.deal.mandate, now))
            && (next.1.Prepared? <==>
                  && MayPurchase(call.deal.intent, call.deal.mandate, now)
                  && call.decision.snapshotHash == call.snapshot.snapshotHash
                  && FindSupplier(c.suppliers, call.quote.supplierId).Ok?)
            && (!next.1.Prepared? ==> next.1.Raised? && next.0 == ts)
  {
    hide Policies;
    PoliciesExact(call.deal, now);
    FoundSupplierIsActive(c.suppliers, call.quote.supplierId);
  }

  /** The append to the ledger. */
  function AppendIntent(c: Controls, ts: TrustState, f: Flight): (TrustState, Flight)
    requires f.Prepared?
  {
    match Append(c.chainHash, ts.rows, f.call.deal.dealId, c.intentHash(f.intent))
    case Err(_) => (ts, Raised(f.call, AppendRaised))
    case Ok(anchor) => (ts.(rows := ts.rows + [anchor]), Anchored(f.call, f.policies, f.supplier, f.intent, anchor))
  }

  /** The verification of the ledger, the oracle's checks and the kill switch. */
  function Clear(c: Controls, ts: TrustState, f: Flight): Flight
    requires f.Anchored?
  {
    var checks := ChecksOf(c, ts.rows, f.call, f.policies, f.supplier, f.intent, f.anchor);
    if !checks.All() then Raised(f.call, OracleRejected)
    else if c.killSwitch then Raised(f.call, KillSwitchActive)
    else Cleared(f.call, f.policies, f.supplier, f.intent, f.anchor,
                 OracleVerification(f.intent.intentId, checks.All(), checks), FraudDecision(checks))
  }

  /** Get or create the draft under the payment lock. */
  function TakeDraft(ts: TrustState, f: Flight): (TrustState, Flight)
    requires f.Cleared?
  {
    var created := DraftOf(f.call, f.supplier.bankBindingHash, ts.nextId, ts.nextId + 1);
    var draft := if f.call.key in ts.payments then ts.payments[f.call.key] else created;
    var policy := if |f.policies| > 0 then f.policies[0] else ControlDecision(false, CreatePurchaseIntent, []);
    (if f.call.key in ts.payments then ts
     else ts.(payments := ts.payments[f.call.key := created], nextId := ts.nextId + 2),
     Drafted(f.call, Artifacts(f.intent, f.anchor, f.oracle, draft, policy, f.fraud)))
  }

  /** One stage of a call; an ended call stays where it is. */
  function Advance(c: Controls, ts: TrustState, f: Flight, now: Time): (TrustState, Flight) {
    match f
    case Entered(call) => Enter(c, ts, call, now)
    case Prepared(_, _, _, _) => AppendIntent(c, ts, f)
    case Anchored(_, _, _, _, _) => (ts, Clear(c, ts, f))
    case Cleared(_, _, _, _, _, _, _) => TakeDraft(ts, f)
    case Drafted(call, result) => (ts.(purchases := ts.purchases[call.key := result]), Returned(call, result))
    case Returned(_, _) => (ts, f)
    case Raised(_, _) => (ts, f)
  }

  /** A call that nobody interrupts. */
  function Process(c: Controls, ts: TrustState, call: Call, now: Time): (TrustState, Flight) {
    var entered := Enter(c, ts, call, now);
    if !entered.1.Prepared? then entered
    else
      var anchored := AppendIntent(c, entered.0, entered.1);
      if !anchored.1.Anchored? then anchored
      else
        var cleared := Clear(c, anchored.0, anchored.1);
        if !cleared.Cleared? then (anchored.0, cleared)
        else
          var drafted := TakeDraft(anchored.0, cleared);
          Advance(c, drafted.0, drafted.1, now)
  }

  function Outcome(f: Flight): Result<Artifacts, TrustError> {
    match f
    case Returned(_, result) => Ok(result)
    case Raised(_, error) => Err(error)
    case _ => Err(AppendRaised)
  }

  /******* What the oracle decides *******/

  predicate WithinMandate(call: Call) {
    call.quote.TotalCost() <= call.deal.mandate.maxTotal && call.quote.currency == call.deal.mandate.currency
  }

  /** Oracle completeness: for a prepared call on a verifying ledger, whatever any other deals or calls
      append between its own append and the verification, the checks pass exactly when the amount and
      the currency are within the mandate; integrity and intent hash never fail. */
  lemma OracleCompleteness(c: Controls, rows: seq<Anchor>, call: Call, now: Time, intentId: Id, between: seq<Request>)
    requires AllVerify(c.chainHash, rows)
    requires AllAllow(Policies(call.deal, now))
    requires call.decision.snapshotHash == call.snapshot.snapshotHash
    requires FindSupplier(c.suppliers, call.quote.supplierId).Ok?
    requires var supplier := FindSupplier(c.suppliers, call.quote.supplierId).value;
             var intent := IntentOf(call, supplier.bankBindingHash, intentId);
             Append(c.chainHash, rows, call.deal.dealId, c.intentHash(intent)).Ok?
    ensures var supplier := FindSupplier(c.suppliers, call.quote.supplierId).value;
            var intent := IntentOf(call, supplier.bankBindingHash, intentId);
            var anchor := Append(c.chainHash, rows, call.deal.dealId, c.intentHash(intent)).value;
            var later := Run(c.chainHash, rows + [anchor], between);
            var checks := ChecksOf(c, later, call, Policies(call.deal, now), supplier, intent, anchor);
            && checks.anchorIntegrity && checks.intentHash
            && (checks.All() <==> WithinMandate(call))
  {
    var supplier := FindSupplier(c.suppliers, call.quote.supplierId).value;
    var intent := IntentOf(call, supplier.bankBindingHash, intentId);
    var anchor := Append(c.chainHash, rows, call.deal.dealId, c.intentHash(intent)).value;
    FoundSupplierIsActive(c.suppliers, call.quote.supplierId);
    AppendKeepsVerifying(c.chainHash, rows, call.deal.dealId, c.intentHash(intent));
    RunKeepsVerifying(c.chainHash, rows + [anchor], between);
    IntactWhenVerifying(c.chainHash, Run(c.chainHash, rows + [anchor], between), call.deal.dealId);
  }

  lemma IntactWhenVerifying(hash: Preimage -> Digest, rows: seq<Anchor>, dealId: Id)
    requires AllVerify(hash, rows)
    ensures LedgerIntact(hash, dealId, rows)
  {
    assert Verifies(hash, dealId, ChainOf(rows, dealId));
  }

  /** In any state, even one whose ledger was tampered with, an anchored call is cleared exactly when its
      deal's chain verifies, anchor, intent, approval, registry and policies are in order, amount and currency
      are within the mandate, and the kill switch is off. */
  lemma ClearsIff(c: Controls, ts: TrustState, f: Flight)
    requires f.Anchored?
    ensures Clear(c, ts, f).Cleared? <==>
              && Verifies(c.chainHash, f.call.deal.dealId, ChainOf(ts.rows, f.call.deal.dealId))
              && f.anchor.payloadHash == c.intentHash(f.intent)
              && f.intent.approvedSnapshotHash == f.call.snapshot.snapshotHash
              && f.supplier.active && f.supplier.bankBindingHash == f.intent.recipientBindingHash
              && (forall i :: 0 <= i < |f.policies| ==> f.policies[i].allow)
              && f.intent.amount <= f.call.deal.mandate.maxTotal && f.intent.currency == f.call.deal.mandate.currency
              && !c.killSwitch
  {
  }

  /******* What every stage keeps *******/

  ghost predicate CacheCoherent(ts: TrustState) {
    forall k :: k in ts.purchases ==> k in ts.payments && ts.purchases[k].paymentDraft == ts.payments[k]
  }

  predicate IdsUsed(draft: PaymentDraft, nextId: Id) {
    draft.paymentDraftId < nextId && draft.orderId < nextId
  }

  ghost predicate FreshSupply(ts: TrustState) {
    forall k :: k in ts.payments ==> IdsUsed(ts.payments[k], ts.nextId)
  }

  predicate Apart(a: PaymentDraft, b: PaymentDraft) {
    a.orderId != b.orderId && a.paymentDraftId != b.paymentDraftId
  }

  ghost predicate DistinctOrders(ts: TrustState) {
    forall k, l :: k in ts.payments && l in ts.payments && k != l ==> Apart(ts.payments[k], ts.payments[l])
  }

  ghost predicate TrustInvariant(c: Controls, ts: TrustState) {
    AllVerify(c.chainHash, ts.rows) && CacheCoherent(ts) && FreshSupply(ts) && DistinctOrders(ts)
  }

  /** A call past its preparation carries the intent of its own quote for an active supplier. */
  ghost predicate WellPrepared(c: Controls, f: Flight)
    requires f.Prepared? || f.Anchored? || f.Cleared?
  {
    && AllAllow(f.policies)
    && f.policies != [] && f.policies[0].operation == CreatePurchaseIntent
    && Authorized(f.call.deal.intent, f.call.deal.mandate)
    && f.call.decision.snapshotHash == f.call.snapshot.snapshotHash
    && FindSupplier(c.suppliers, f.call.quote.supplierId) == Ok(f.supplier)
    && f.intent == IntentOf(f.call, f.supplier.bankBindingHash, f.intent.intentId)
  }

  ghost predicate WellAnchored(c: Controls, ts: TrustState, f: Flight)
    requires f.Anchored? || f.Cleared?
  {
    && f.anchor in ts.rows
    && f.anchor.dealId == f.call.deal.dealId
    && f.anchor.payloadHash == c.intentHash(f.intent)
  }

  ghost predicate FlightSound(c: Controls, ts: TrustState, f: Flight) {
    match f
    case Entered(_) => true
    case Prepared(_, _, _, _) => WellPrepared(c, f)
    case Anchored(_, _, _, _, _) => WellPrepared(c, f) && WellAnchored(c, ts, f)
    case Cleared(_, _, _, _, _, oracle, fraud) =>
      && WellPrepared(c, f) && WellAnchored(c, ts, f) && WithinMandate(f.call) && !c.killSwitch
      && oracle.verified && oracle.checks.All() && oracle.purchaseIntentId == f.intent.intentId && fraud.allow
    case Drafted(call, result) => call.key in ts.payments && result.paymentDraft == ts.payments[call.key]
    case Returned(call, result) => call.key in ts.payments && result.paymentDraft == ts.payments[call.key]
    case Raised(_, _) => true
  }

  /** The service only ever adds: rows are appended and drafts are never replaced. */
  ghost predicate Grows(before: TrustState, after: TrustState) {
    && before.rows <= after.rows
    && before.nextId <= after.nextId
    && forall k :: k in before.payments ==> k in after.payments && after.payments[k] == before.payments[k]
  }

  lemma SoundAfterGrowth(c: Controls, before: TrustState, after: TrustState, f: Flight)
    requires FlightSound(c, before, f) && Grows(before, after)
    ensures FlightSound(c, after, f)
  {
    if f.Anchored? || f.Cleared? {
      var i :| 0 <= i < |before.rows| && before.rows[i] == f.anchor;
      assert after.rows[i] == f.anchor;
    }
  }

  lemma PreparedSound(c: Controls, ts: TrustState, f: Flight, now: Time)
    requires TrustInvariant(c, ts) && f.Entered?
    ensures var next := Advance(c, ts, f, now);
            TrustInvariant(c, next.0) && Grows(ts, next.0) && FlightSound(c, next.0, next.1)
  {
    var next := Advance(c, ts, f, now);
    forall k | k in next.0.payments ensures IdsUsed(next.0.payments[k], next.0.nextId) {
      assert IdsUsed(ts.payments[k], ts.nextId);
    }
    if next.1.Prepared? {
      PoliciesExact(f.call.deal, now);
      assert MayPurchase(f.call.deal.intent, f.call.deal.mandate, now);
      assert f.call == next.1.call && next.1.policies[0] == MandateDecision(f.call.deal, CreatePurchaseIntent, now);
    }
  }

  lemma AnchoredSound(c: Controls, ts: TrustState, f: Flight, now: Time)
    requires TrustInvariant(c, ts) && f.Prepared? && FlightSound(c, ts, f)
    ensures var next := Advance(c, ts, f, now);
            TrustInvariant(c, next.0) && Grows(ts, next.0) && FlightSound(c, next.0, next.1)
  {
    AppendKeepsVerifying(c.chainHash, ts.rows, f.call.deal.dealId, c.intentHash(f.intent));
    var next := Advance(c, ts, f, now);
    if next.1.Anchored? {
      assert next.0.rows[|ts.rows|] == next.1.anchor;
    }
  }

  /** In every state the invariant allows, an anchored call is cleared exactly when it is within the
      mandate and the kill switch is off; otherwise it is the oracle, then the switch, that stops it. */
  lemma ClearedIff(c: Controls, ts: TrustState, f: Flight)
    requires TrustInvariant(c, ts) && f.Anchored? && FlightSound(c, ts, f)
    ensures Clear(c, ts, f).Cleared? <==> WithinMandate(f.call) && !c.killSwitch
    ensures Clear(c, ts, f) == Raised(f.call, OracleRejected) <==> !WithinMandate(f.call)
    ensures FlightSound(c, ts, Clear(c, ts, f))
  {
    FoundSupplierIsActive(c.suppliers, f.call.quote.supplierId);
    IntactWhenVerifying(c.chainHash, ts.rows, f.call.deal.dealId);
  }

  lemma DraftedSound(c: Controls, ts: TrustState, f: Flight, now: Time)
    requires TrustInvariant(c, ts) && f.Cleared? && FlightSound(c, ts, f)
    ensures var next := Advance(c, ts, f, now);
            TrustInvariant(c, next.0) && Grows(ts, next.0) && FlightSound(c, next.0, next.1)
  {
    var next := TakeDraft(ts, f);
    if f.call.key !in ts.payments {
      forall k | k in next.0.payments ensures IdsUsed(next.0.payments[k], next.0.nextId) {
        assert k != f.call.key ==> IdsUsed(ts.payments[k], ts.nextId);
      }
      forall k, l | k in next.0.payments && l in next.0.payments && k != l
          ensures Apart(next.0.payments[k], next.0.payments[l]) {
        assert k != f.call.key ==> IdsUsed(ts.payments[k], ts.nextId);
        assert l != f.call.key ==> IdsUsed(ts.payments[l], ts.nextId);
        assert k != f.call.key && l != f.call.key ==> Apart(ts.payments[k], ts.payments[l]);
      }
    }
  }

  /** Every stage of every call keeps the invariant and only adds to the state. */
  lemma AdvanceKeeps(c: Controls, ts: TrustState, f: Flight, now: Time)
    requires TrustInvariant(c, ts) && FlightSound(c, ts, f)
    ensures var next := Advance(c, ts, f, now);
            TrustInvariant(c, next.0) && Grows(ts, next.0) && FlightSound(c, next.0, next.1)
  {
    match f {
      case Entered(_) => PreparedSound(c, ts, f, now);
      case Prepared(_, _, _, _) => AnchoredSound(c, ts, f, now);
      case Anchored(_, _, _, _, _) => ClearedIff(c, ts, f);
      case Cleared(_, _, _, _, _, _, _) => DraftedSound(c, ts, f, now);
      case Drafted(_, _) =>
      case Returned(_, _) =>
      case Raised(_, _) =>
    }
  }

  /** A call that passes its preparation on an unused key, whose append is not refused and whose quote is
      within the mandate, returns, unless the kill switch is on. */
  lemma CallSucceeds(c: Controls, ts: TrustState, call: Call, now: Time)
    requires TrustInvariant(c, ts) && !c.killSwitch && WithinMandate(call) && call.key !in ts.purchases
    requires Enter(c, ts, call, now).1.Prepared?
    requires AppendIntent(c, Enter(c, ts, call, now).0, Enter(c, ts, call, now).1).1.Anchored?
    ensures Process(c, ts, call, now).1.Returned?
  {
    hide ChecksOf, Policies;
    var entered := Enter(c, ts, call, now);
    AdvanceKeeps(c, ts, Entered(call), now);
    AdvanceKeeps(c, entered.0, entered.1, now);
    var anchored := AppendIntent(c, entered.0, entered.1);
    ClearedIff(c, anchored.0, anchored.1);
  }

  /** What a call that is not answered from the cache and finds no earlier draft hands back. */
  ghost predicate Issued(c: Controls, rows: seq<Anchor>, call: Call, a: Artifacts) {
    && WithinMandate(call)
    && call.decision.snapshotHash == call.snapshot.snapshotHash
    && FindSupplier(c.suppliers, call.quote.supplierId).Ok?
    && var binding := FindSupplier(c.suppliers, call.quote.supplierId).value.bankBindingHash;
    && a.purchaseIntent == IntentOf(call, binding, a.purchaseIntent.intentId)
    && a.paymentDraft == DraftOf(call, binding, a.paymentDraft.paymentDraftId, a.paymentDraft.orderId)
    && a.anchor in rows && a.anchor.dealId == call.deal.dealId && a.anchor.payloadHash == c.intentHash(a.purchaseIntent)
    && a.oracle.verified && a.oracle.checks.All() && a.oracle.purchaseIntentId == a.purchaseIntent.intentId
    && a.policy.allow && a.policy.operation == CreatePurchaseIntent && a.fraud.allow
  }

  lemma FirstDraftIsIssued(c: Controls, ts: TrustState, f: Flight)
    requires f.Cleared? && FlightSound(c, ts, f) && f.call.key !in ts.payments
    ensures TakeDraft(ts, f).1.Drafted? && Issued(c, ts.rows, f.call, TakeDraft(ts, f).1.result)
  {
  }

  /******* Any number of calls at once *******/

  /** Calls in any stage, in any number and for any keys, over one service. */
  datatype World = World(trust: TrustState, flights: seq<Flight>)

  /** A call enters, one call moves by one stage, or one is cut off where it stands. */
  datatype Move = Start(call: Call) | Proceed(i: nat, now: Time) | CutOff(i: nat)

  function StepWorld(c: Controls, w: World, move: Move): World {
    match move
    case Start(call) => w.(flights := w.flights + [Entered(call)])
    case Proceed(i, now) =>
      if i < |w.flights| then
        var next := Advance(c, w.trust, w.flights[i], now);
        World(next.0, w.flights[i := next.1])
      else w
    case CutOff(i) =>
      if i < |w.flights| && !Ended(w.flights[i])
      then w.(flights := w.flights[i := Raised(w.flights[i].call, AppendRaised)])
      else w
  }

  function Schedule(c: Controls, w: World, moves: seq<Move>): World
    decreases |moves|
  {
    if moves == [] then w else Schedule(c, StepWorld(c, w, moves[0]), moves[1..])
  }

  ghost predicate WorldInvariant(c: Controls, w: World) {
    && TrustInvariant(c, w.trust)
    && forall i :: 0 <= i < |w.flights| ==> FlightSound(c, w.trust, w.flights[i])
  }

  lemma StepWorldKeeps(c: Controls, w: World, move: Move)
    requires WorldInvariant(c, w)
    ensures WorldInvariant(c, StepWorld(c, w, move)) && Grows(w.trust, StepWorld(c, w, move).trust)
  {
    var after := StepWorld(c, w, move);
    if move.Proceed? && move.i < |w.flights| {
      AdvanceKeeps(c, w.trust, w.flights[move.i], move.now);
      forall j | 0 <= j < |after.flights| ensures FlightSound(c, after.trust, after.flights[j]) {
        if j != move.i {
          SoundAfterGrowth(c, w.trust, after.trust, w.flights[j]);
        }
      }
    }
  }

  lemma {:induction false} ScheduleKeeps(c: Controls, w: World, moves: seq<Move>)
    requires WorldInvariant(c, w)
    ensures WorldInvariant(c, Schedule(c, w, moves)) && Grows(w.trust, Schedule(c, w, moves).trust)
    decreases |moves|
  {
    if moves != [] {
      StepWorldKeeps(c, w, moves[0]);
      ScheduleKeeps(c, StepWorld(c, w, moves[0]), moves[1..]);
    }
  }

  /** The draft pays an active supplier what the call's quote costs, and the mandate permitted all of it. */
  ghost predicate Backs(c: Controls, call: Call, draft: PaymentDraft) {
    && Authorized(call.deal.intent, call.deal.mandate) && WithinMandate(call)
    && FindSupplier(c.suppliers, call.quote.supplierId).Ok?
    && var binding := FindSupplier(c.suppliers, call.quote.supplierId).value.bankBindingHash;
       draft == DraftOf(call, binding, draft.paymentDraftId, draft.orderId)
  }

  /** One of the calls of the draft's key backs it. */
  ghost predicate Backed(c: Controls, w: World, k: Key) {
    k in w.trust.payments ==>
      exists i :: 0 <= i < |w.flights| && w.flights[i].call.key == k && Backs(c, w.flights[i].call, w.trust.payments[k])
  }

  lemma AdvanceBacks(c: Controls, ts: TrustState, f: Flight, now: Time)
    requires TrustInvariant(c, ts) && FlightSound(c, ts, f)
    ensures var next := Advance(c, ts, f, now);
            && next.1.call == f.call
            && (forall k :: k in next.0.payments && k !in ts.payments ==>
                  k == f.call.key && Backs(c, f.call, next.0.payments[k]))
            && (forall k :: k in ts.payments ==> k in next.0.payments && next.0.payments[k] == ts.payments[k])
  {
    hide Policies, TrustInvariant, Backs;
    if f.Cleared? && f.call.key !in ts.payments {
      FirstBacks(c, ts, f);
    }
  }

  lemma FirstBacks(c: Controls, ts: TrustState, f: Flight)
    requires f.Cleared? && FlightSound(c, ts, f) && f.call.key !in ts.payments
    ensures Backs(c, f.call, TakeDraft(ts, f).0.payments[f.call.key])
  {
    hide Authorized;
  }

  lemma StepBacks(c: Controls, w: World, move: Move, k: Key)
    requires WorldInvariant(c, w) && Backed(c, w, k)
    ensures Backed(c, StepWorld(c, w, move), k)
  {
    hide TrustInvariant, FlightSound, Backs, Advance;
    var after := StepWorld(c, w, move);
    if move.Proceed? && move.i < |w.flights| { AdvanceBacks(c, w.trust, w.flights[move.i], move.now); }
    if k in w.trust.payments {
      var i :| 0 <= i < |w.flights| && w.flights[i].call.key == k && Backs(c, w.flights[i].call, w.trust.payments[k]);
      assert after.flights[i].call == w.flights[i].call;
    } else if k in after.trust.payments {
      assert after.flights[move.i].call.key == k;
    }
  }

  lemma {:induction false} ScheduleBacks(c: Controls, w: World, moves: seq<Move>, k: Key)
    requires WorldInvariant(c, w) && Backed(c, w, k)
    ensures Backed(c, Schedule(c, w, moves), k)
    decreases |moves|
  {
    hide WorldInvariant, Backed;
    if moves != [] {
      StepWorldKeeps(c, w, moves[0]);
      StepBacks(c, w, moves[0], k);
      ScheduleBacks(c, StepWorld(c, w, moves[0]), moves[1..], k);
    }
  }

  /** Under every interleaving, every draft belongs to a call of its key whose mandate permitted all four
      operations, in the need's currency and category, and it pays that call's quote, within the limit. */
  lemma DraftsArePermitted(c: Controls, moves: seq<Move>, k: Key) returns (call: Call, at: Time)
    requires k in Schedule(c, World(EMPTY_TRUST, []), moves).trust.payments
    ensures var w := Schedule(c, World(EMPTY_TRUST, []), moves);
            && call.key == k && (exists i :: 0 <= i < |w.flights| && w.flights[i].call == call)
            && w.trust.payments[k].payeeSupplierId == call.quote.supplierId
            && w.trust.payments[k].amount == call.quote.TotalCost() <= call.deal.mandate.maxTotal
            && w.trust.payments[k].currency == call.quote.currency == call.deal.mandate.currency
            && call.deal.intent.currency == call.deal.mandate.currency
            && call.deal.intent.product.category in call.deal.mandate.allowedCategories
            && call.deal.mandate.Permits(CreatePurchaseIntent, at) && call.deal.mandate.Permits(AnchorIntent, at)
            && call.deal.mandate.Permits(OracleProcess, at) && call.deal.mandate.Permits(CreatePaymentDraft, at)
  {
    hide WorldInvariant, Schedule;
    EmptyTrustInvariant(c);
    EmptyWorld(c);
    ScheduleBacks(c, World(EMPTY_TRUST, []), moves, k);
    var w := Schedule(c, World(EMPTY_TRUST, []), moves);
    var i :| 0 <= i < |w.flights| && w.flights[i].call.key == k && Backs(c, w.flights[i].call, w.trust.payments[k]);
    call := w.flights[i].call;
    at :| MayPurchase(call.deal.intent, call.deal.mandate, at);
  }

  lemma EmptyWorld(c: Controls)
    ensures WorldInvariant(c, World(EMPTY_TRUST, []))
  {
    EmptyTrustInvariant(c);
  }

  const EMPTY_TRUST := TrustState([], map[], map[], 0)

  lemma EmptyTrustInvariant(c: Controls)
    ensures TrustInvariant(c, EMPTY_TRUST)
  {
    forall d ensures Verifies(c.chainHash, d, ChainOf([], d)) { assert ChainOf([], d) == []; }
  }

  /** Under every interleaving of any calls, cut off or not, all calls that return for one key return
      the same payment draft, and calls for different keys different ones. */
  lemma OneDraftPerKey(c: Controls, moves: seq<Move>, i: nat, j: nat)
    requires var w := Schedule(c, World(EMPTY_TRUST, []), moves);
             i < |w.flights| && j < |w.flights| && w.flights[i].Returned? && w.flights[j].Returned?
    ensures var w := Schedule(c, World(EMPTY_TRUST, []), moves);
            var a, b := w.flights[i], w.flights[j];
            && (a.call.key == b.call.key ==> a.result.paymentDraft == b.result.paymentDraft)
            && (a.call.key != b.call.key ==> Apart(a.result.paymentDraft, b.result.paymentDraft))
  {
    EmptyTrustInvariant(c);
    ScheduleKeeps(c, World(EMPTY_TRUST, []), moves);
    var w := Schedule(c, World(EMPTY_TRUST, []), moves);
    assert FlightSound(c, w.trust, w.flights[i]) && FlightSound(c, w.trust, w.flights[j]);
  }

  /** `n` stages of one call in a row. */
  function Stages(c: Controls, ts: TrustState, f: Flight, now: Time, n: nat): (TrustState, Flight)
    decreases n
  {
    if n == 0 then (ts, f)
    else
      var next := Advance(c, ts, f, now);
      Stages(c, next.0, next.1, now, n - 1)
  }

  lemma {:induction false} EndedStays(c: Controls, ts: TrustState, f: Flight, now: Time, n: nat)
    requires Ended(f)
    ensures Stages(c, ts, f, now, n) == (ts, f)
    decreases n
  {
    if n > 0 {
      EndedStays(c, ts, f, now, n - 1);
    }
  }

  lemma OneStage(c: Controls, ts: TrustState, f: Flight, now: Time, n: nat)
    ensures var next := Advance(c, ts, f, now);
            && Stages(c, ts, f, now, n + 1) == Stages(c, next.0, next.1, now, n)
            && (Ended(next.1) ==> Stages(c, ts, f, now, n + 1) == next)
  {
    var next := Advance(c, ts, f, now);
    if Ended(next.1) { EndedStays(c, next.0, next.1, now, n); }
  }

  lemma AfterEntry(c: Controls, ts: TrustState, f: Flight, now: Time)
    requires f.Prepared?
    ensures Stages(c, ts, f, now, 4) ==
            var anchored := AppendIntent(c, ts, f);
            if !anchored.1.Anchored? then anchored else Stages(c, anchored.0, anchored.1, now, 3)
  {
    OneStage(c, ts, f, now, 3);
  }

  lemma AfterAnchoring(c: Controls, ts: TrustState, f: Flight, now: Time)
    requires f.Anchored?
    ensures Stages(c, ts, f, now, 3) ==
            var cleared := Clear(c, ts, f);
            if !cleared.Cleared? then (ts, cleared)
            else var drafted := TakeDraft(ts, cleared); Advance(c, drafted.0, drafted.1, now)
  {
    OneStage(c, ts, f, now, 2);
    var cleared := Clear(c, ts, f);
    if cleared.Cleared? {
      OneStage(c, ts, cleared, now, 1);
      var drafted := TakeDraft(ts, cleared);
      OneStage(c, drafted.0, drafted.1, now, 0);
    }
  }

  lemma ProcessIsFiveStages(c: Controls, ts: TrustState, call: Call, now: Time)
    ensures Stages(c, ts, Entered(call), now, 5) == Process(c, ts, call, now)
  {
    OneStage(c, ts, Entered(call), now, 4);
    var entered := Enter(c, ts, call, now);
    if entered.1.Prepared? {
      AfterEntry(c, entered.0, entered.1, now);
      var anchored := AppendIntent(c, entered.0, entered.1);
      if anchored.1.Anchored? {
        AfterAnchoring(c, anchored.0, anchored.1, now);
      }
    }
  }

  function Repeat(move: Move, n: nat): seq<Move> {
    seq(n, _ => move)
  }

  lemma {:induction false} StagesAreScheduled(c: Controls, ts: TrustState, f: Flight, now: Time, n: nat)
    ensures var last := Stages(c, ts, f, now, n);
            Schedule(c, World(ts, [f]), Repeat(Proceed(0, now), n)) == World(last.0, [last.1])
    decreases n
  {
    if n > 0 {
      var next := Advance(c, ts, f, now);
      assert Repeat(Proceed(0, now), n)[1..] == Repeat(Proceed(0, now), n - 1);
      assert StepWorld(c, World(ts, [f]), Proceed(0, now)) == World(next.0, [next.1]);
      StagesAreScheduled(c, next.0, next.1, now, n - 1);
    }
  }

  /** A call that nobody interrupts is one of the schedules: its entry and five moves of its own. */
  lemma UninterruptedIsScheduled(c: Controls, ts: TrustState, call: Call, now: Time)
    ensures var done := Process(c, ts, call, now);
            Schedule(c, World(ts, [Entered(call)]), Repeat(Proceed(0, now), 5)) == World(done.0, [done.1])
  {
    StagesAreScheduled(c, ts, Entered(call), now, 5);
    ProcessIsFiveStages(c, ts, call, now);
  }

  /** Neither the ledger nor a draft once issued is ever rewritten. */
  lemma DraftsAreWriteOnce(c: Controls, moves: seq<Move>, more: seq<Move>)
    ensures var w := Schedule(c, World(EMPTY_TRUST, []), moves);
            Grows(w.trust, Schedule(c, w, more).trust)
  {
    EmptyTrustInvariant(c);
    ScheduleKeeps(c, World(EMPTY_TRUST, []), moves);
    ScheduleKeeps(c, Schedule(c, World(EMPTY_TRUST, []), moves), more);
  }

  /******* The program *******/

  class TrustedInfrastructureService {
    const controls: Controls
    const anchor: DatabaseHashChainAnchor
    var payments: map<Key, PaymentDraft>
    var purchases: map<Key, Artifacts>
    var nextId: Id

    constructor (controls: Controls, anchor: DatabaseHashChainAnchor)
      ensures this.controls == controls && this.anchor == anchor
      ensures State() == TrustState(anchor.rows, map[], map[], 0)
    {
      this.controls := controls;
      this.anchor := anchor;
      payments, purchases, nextId := map[], map[], 0;
    }

    ghost predicate Valid() {
      anchor.hash == controls.chainHash
    }

    function State(): TrustState
      reads this, anchor
    {
      TrustState(anchor.rows, payments, purchases, nextId)
    }

    /** From the cache lookup to the first await. */
    method EnterCall(call: Call, now: Time) returns (f: Flight)
      modifies this
      ensures (State(), f) == Enter(controls, old(State()), call, now)
    {
      if call.key in purchases {
        return Returned(call, purchases[call.key]);
      }
      var policies: seq<ControlDecision> := [];
      for i := 0 to |OPERATIONS|
        invariant policies == Policies(call.deal, now)[..i]
        invariant State() == old(State())
      {
        var d := CheckMandate(call.deal, OPERATIONS[i], now);
        policies := policies + [d];
      }
      assert policies == Policies(call.deal, now);
      if !AllAllow(policies) { return Raised(call, PolicyDenied); }
      if call.decision.snapshotHash != call.snapshot.snapshotHash { return Raised(call, ApprovalHashMismatch); }
      var found := FindSupplier(controls.suppliers, call.quote.supplierId);
      if found.Err? { return Raised(call, found.error); }
      var intent := PurchaseIntent(nextId, call.deal.dealId, call.snapshot.snapshotHash, call.deal.mandate.agentId,
                                   call.quote.supplierId, call.quote.TotalCost(), call.quote.currency,
                                   found.value.bankBindingHash);
      nextId := nextId + 1;
      f := Prepared(call, policies, found.value, intent);
    }

    method AnchorIntent(f: Flight) returns (g: Flight)
      requires Valid() && f.Prepared?
      modifies anchor
      ensures (State(), g) == AppendIntent(controls, old(State()), f)
    {
      var appended := anchor.AppendPayload(f.call.deal.dealId, controls.intentHash(f.intent));
      g := if appended.Ok? then Anchored(f.call, f.policies, f.supplier, f.intent, appended.value)
           else Raised(f.call, AppendRaised);
    }

    method AskOracle(f: Flight) returns (g: Flight)
      requires Valid() && f.Anchored?
      ensures g == Clear(controls, State(), f)
    {
      var call, intent, supplier := f.call, f.intent, f.supplier;
      var intact := anchor.Verify(call.deal.dealId);
      var checks := Checks(intact, f.anchor.payloadHash == controls.intentHash(intent),
                           intent.approvedSnapshotHash == call.snapshot.snapshotHash, true, supplier.active,
                           AllAllow(f.policies), intent.recipientBindingHash == supplier.bankBindingHash,
                           intent.amount <= call.deal.mandate.maxTotal, intent.currency == call.deal.mandate.currency);
      var oracle := OracleVerification(intent.intentId, checks.All(), checks);
      if !oracle.verified { return Raised(call, OracleRejected); }
      if controls.killSwitch { return Raised(call, KillSwitchActive); }
      g := Cleared(call, f.policies, supplier, intent, f.anchor, oracle, FraudDecision(checks));
    }

    method GetOrCreateDraft(f: Flight) returns (g: Flight)
      requires f.Cleared? && |f.policies| > 0
      modifies this
      ensures (State(), g) == TakeDraft(old(State()), f)
    {
      var call := f.call;
      if call.key !in payments {
        payments := payments[call.key := PaymentDraft(
          nextId, nextId + 1, call.quote.TotalCost(), call.quote.currency, call.quote.supplierId,
          AwaitingCustomerSignature, f.supplier.bankBindingHash)];
        nextId := nextId + 2;
      }
      g := Drafted(call, Artifacts(f.intent, f.anchor, f.oracle, payments[call.key], f.policies[0], f.fraud));
    }

    method ProcessApprovedPurchase(call: Call, now: Time) returns (r: Result<Artifacts, TrustError>)
      requires Valid()
      modifies this, anchor
      ensures var done := Process(controls, old(State()), call, now); State() == done.0 && r == Outcome(done.1)
      ensures call.key !in old(purchases) && !MayPurchase(call.deal.intent, call.deal.mandate, now) ==>
                r == Err(PolicyDenied) && State() == old(State())
    {
      if call.key !in purchases { EnterIff(controls, State(), call, now); }
      var f := EnterCall(call, now);
      if !f.Prepared? { return Outcome(f); }
      f := AnchorIntent(f);
      if !f.Anchored? { return Outcome(f); }
      f := AskOracle(f);
      if !f.Cleared? { return Outcome(f); }
      f := GetOrCreateDraft(f);
      purchases := purchases[call.key := f.result];
      r := Ok(f.result);
    }
  }
}
