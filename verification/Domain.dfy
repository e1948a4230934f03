/** The records of the purchase: what the buyer asks for, what a supplier offers, and the deal
    that carries both to a payment draft. Amounts are exact reals; instants and calendar days are
    integers; UUIDs are natural numbers. */
module Domain {
  import opened Wrappers

  type Id = nat
  type AgentId = string
  type Digest = string
  type Time = int
  type Day = int

  function Abs(x: real): real {
    if x < 0.0 then -x else x
  }

  /******* The buyer's side *******/

  datatype Weights = Weights(price: real, delivery: real, warranty: real, risk: real, paymentTerms: real)
  {
    function Sum(): real {
      price + delivery + warranty + risk + paymentTerms
    }

    /** What the model validator lets through. */
    predicate Valid() {
      && price >= 0.0 && delivery >= 0.0 && warranty >= 0.0 && risk >= 0.0 && paymentTerms >= 0.0
      && Abs(Sum() - 1.0) <= 0.0001
    }
  }

  datatype Product = Product(sku: string, category: string, quantity: nat)

  datatype Intent = Intent(
    customerId: string, product: Product, deliveryCity: string, deliveryBy: Day,
    maxTotal: Option<real>, currency: string, weights: Weights)

  datatype Action =
    | SendRfq
    | FinalOfferAcceptance
    | CreatePurchaseIntent
    | AnchorIntent
    | OracleProcess
    | CreatePaymentDraft
    | EdoAction
    | OtherAction(name: string)

  datatype Mandate = Mandate(
    mandateId: Id, agentId: AgentId, authorizedBy: string,
    allowedActions: set<Action>, forbiddenActions: set<Action>, allowedCategories: set<string>,
    maxTotal: real, currency: string, validFrom: Time, expiresAt: Time,
    allowedSupplierIds: Option<set<AgentId>>, requiredApprovals: set<string>,
    revokedAt: Option<Time>, version: string)
  {
    predicate Permits(action: Action, now: Time) {
      && revokedAt.None?
      && validFrom <= now < expiresAt
      && action in allowedActions
      && action !in forbiddenActions
    }
  }

  /******* The supplier's side *******/

  datatype Quote = Quote(
    quoteId: Id, supplierId: AgentId, supplierName: string, sku: string, quantity: nat,
    unitPrice: real, deliveryFee: real, currency: string, deliveryDays: nat, warrantyMonths: nat,
    supplierRisk: real, paymentDelayDays: nat, validUntil: Time)
  {
    /** The field constraints of the schema. */
    predicate Valid() {
      quantity > 0 && unitPrice >= 0.0 && deliveryFee >= 0.0 && 0.0 <= supplierRisk <= 1.0
    }

    function TotalCost(): real {
      unitPrice * quantity as real + deliveryFee
    }
  }

  /******* Ranking results *******/

  datatype Constraint =
    | SkuMismatch
    | QuantityMismatch
    | CurrencyMismatch
    | QuoteExpired
    | DeadlineViolated
    | LimitExceeded
    | SupplierNotAllowed

  datatype Components = Components(price: real, delivery: real, warranty: real, risk: real, paymentTerms: real)

  datatype EvaluatedQuote = EvaluatedQuote(
    quote: Quote, eligible: bool, rejectionReasons: seq<Constraint>,
    scores: Option<Components>, totalScore: Option<real>)

  datatype Explanation =
    | NothingEligible
    | Recommends(supplierName: string, totalScore: Option<real>, totalCost: real, currency: string, deliveryDays: nat)
    | Narrated(text: string)

  datatype Comparison = Comparison(
    evaluatedQuotes: seq<EvaluatedQuote>, recommendedQuoteId: Option<Id>,
    explanation: Explanation, rankingVersion: string)

  const RANKING_VERSION := "deterministic-v1"

  /** `next(...)` over the evaluated quotes: the first one that carries the id. */
  function FindEvaluated(items: seq<EvaluatedQuote>, quoteId: Id): Option<EvaluatedQuote> {
    if items == [] then None
    else if items[0].quote.quoteId == quoteId then Some(items[0])
    else FindEvaluated(items[1..], quoteId)
  }

  function FindQuote(quotes: seq<Quote>, quoteId: Id): Option<Quote> {
    if quotes == [] then None
    else if quotes[0].quoteId == quoteId then Some(quotes[0])
    else FindQuote(quotes[1..], quoteId)
  }

  ghost predicate DistinctQuoteIds(quotes: seq<Quote>) {
    forall i, j :: 0 <= i < j < |quotes| ==> quotes[i].quoteId != quotes[j].quoteId
  }

  /******* The approved purchase *******/

  /** Everything the snapshot hash covers. */
  datatype SnapshotPayload = SnapshotPayload(
    dealId: Id, quoteId: Id, supplierId: AgentId, sku: string, quantity: nat, totalCost: real,
    currency: string, deliveryDays: nat, warrantyMonths: nat, paymentDelayDays: nat,
    bankRequisitesHash: Digest, supplierRisk: real, policyVersion: string, rankingVersion: string,
    totalScore: Option<real>)

  datatype ApprovalSnapshot = ApprovalSnapshot(
    quoteId: Id, supplierId: AgentId, sku: string, quantity: nat, totalCost: real, currency: string,
    deliveryDays: nat, warrantyMonths: nat, paymentDelayDays: nat, bankRequisitesHash: Digest,
    supplierRisk: real, policyVersion: string, rankingVersion: string, totalScore: Option<real>,
    snapshotHash: Digest)

  datatype DecisionKind = Approve | Reject | RequestChanges

  datatype HumanDecision = HumanDecision(kind: DecisionKind, approver: string, snapshotHash: Digest)

  datatype PurchaseIntent = PurchaseIntent(
    intentId: Id, dealId: Id, approvedSnapshotHash: Digest, buyerAgentId: AgentId,
    supplierAgentId: AgentId, amount: real, currency: string, recipientBindingHash: Digest)

  datatype Anchor = Anchor(
    dealId: Id, sequenceNumber: nat, previousHash: Digest, currentHash: Digest, payloadHash: Digest)

  datatype ControlDecision = ControlDecision(allow: bool, operation: Action, reasons: seq<string>)

  datatype Checks = Checks(
    anchorIntegrity: bool, intentHash: bool, approvalHash: bool, buyerActive: bool,
    supplierActive: bool, mandate: bool, recipientBinding: bool, amount: bool, currency: bool)
  {
    predicate All() {
      && anchorIntegrity && intentHash && approvalHash && buyerActive && supplierActive
      && mandate && recipientBinding && amount && currency
    }
  }

  datatype OracleVerification = OracleVerification(purchaseIntentId: Id, verified: bool, checks: Checks)

  datatype DraftStatus = AwaitingCustomerSignature | Signed

  datatype PaymentDraft = PaymentDraft(
    paymentDraftId: Id, orderId: Id, amount: real, currency: string, payeeSupplierId: AgentId,
    status: DraftStatus, recipientBindingHash: Digest)

  datatype Order = Order(orderId: Id, supplierId: AgentId, quoteId: Id)

  /******* The deal *******/

  datatype DealStatus =
    | Draft
    | AwaitingApproval
    | OrderCreated
    | Fulfilling
    | Completed
    | Failed
    | Rejected
    | ChangesRequested
    | PaymentSignatureRequired

  datatype Event =
    | DealCreated
    | MandateValidated(valid: bool)
    | SuppliersDiscovered(supplierIds: seq<AgentId>)
    | RfqSent(supplierId: AgentId)
    | SupplierRequestFailed(supplierId: AgentId)
    | QuoteReceived(supplierId: AgentId, quoteId: Id)
    | QuotesCollected(requested: nat, received: nat)
    | QuotesRanked(recommendedQuoteId: Option<Id>)
    | ComparisonExplained
    | WorkflowCompleted(status: DealStatus)
    | WorkflowFailed
    | QuoteApproved(approver: string, snapshotHash: Digest)
    | PurchaseIntentAnchored(anchorHash: Digest)
    | OracleVerified
    | PaymentDraftCreated(paymentDraftId: Id)
    | HumanDecided(kind: DecisionKind, snapshotHash: Digest)
    | PaymentDraftSigned(paymentDraftId: Id)
    | SnapshotCreated(snapshotHash: Digest)
    | AwardSent(supplierId: AgentId)
    | SupplierRejected(supplierId: AgentId)
    | OrderConfirmed(supplierId: AgentId, orderId: Id)
    | FulfillmentUpdated(step: nat)
    | DocumentRegistered(documentId: Id)
    | DealCompleted(orderId: Id)

  datatype Document = Document(documentId: Id, source: AgentId)

  datatype WorkflowError =
    | RfqNotPermitted
    | MandateExpired
    | CategoryNotAllowed
    | IntentLimitExceedsMandate
    | TooFewSuppliers
    | TooFewQuotes(received: nat)
    | NoQuotePassed
    | WorkflowRaised

  datatype Deal = Deal(
    dealId: Id, status: DealStatus, intent: Intent, mandate: Mandate,
    supplierIds: seq<AgentId>, quotes: seq<Quote>, comparison: Option<Comparison>,
    selectedQuoteId: Option<Id>, orderId: Option<Id>, paymentDraftId: Option<Id>,
    approvalSnapshot: Option<ApprovalSnapshot>, order: Option<Order>,
    paymentDraft: Option<PaymentDraft>, humanDecision: Option<HumanDecision>,
    purchaseIntent: Option<PurchaseIntent>, ledgerAnchor: Option<Anchor>,
    oracle: Option<OracleVerification>, policyDecisions: seq<ControlDecision>,
    fraudDecisions: seq<ControlDecision>, fulfillment: seq<nat>, documents: seq<Document>,
    errors: seq<WorkflowError>, events: seq<Event>, updatedAt: Time)
}
