/** The human steps of a deal: what `approve`, `decide` and `sign_payment` check, in which order, and
    the record each one writes. */
module DealService {
  import opened Wrappers
  import opened Domain
  import opened Store
  import opened StoreRefinement
  import opened TrustService
  import opened Outbox
  import Workflow

  /** The trust controls and the hash of an approval snapshot's payload. */
  datatype Setup = Setup(controls: Controls, snapshotHash: SnapshotPayload -> Digest)

  datatype Reason =
    | OtherOrderExists
    | NotAwaitingApproval
    | UseDecisionEndpoint
    | ApproverNotAuthorized
    | AcceptanceNotPermitted
    | MandateHasExpired
    | NoComparison
    | QuoteMissingOrIneligible
    | QuoteHasExpired
    | SnapshotHashMismatch
    | TrustRefused(error: TrustError)
    | SnapshotMissing
    | NotAwaitingSignature
    | FulfillmentNotPermitted
    | ConfirmationRequired
    | SignerNotAuthorized
    | DraftIdMismatch
    | StateIncomplete

  /** A conflict is what callers are told; the others propagate from below. */
  datatype DealError =
    | NotFound
    | Conflict(reason: Reason)
    | ControlRaised(error: TrustError)
    | NoRequiredApproval
    | LedgerRaised
    | StoreRaised

  datatype Approval = Approval(quoteId: Id, approvedBy: string, snapshotHash: Digest, kind: DecisionKind)

  datatype ApprovalResult = ApprovalResult(
    dealId: Id, status: DealStatus, selectedQuoteId: Id, orderId: Id, paymentDraftId: Id, snapshotHash: Digest)

  datatype SignatureRequest = SignatureRequest(signedBy: string, paymentDraftId: Id, confirmation: bool)

  datatype SignatureResult = SignatureResult(
    dealId: Id, paymentDraftId: Id, status: DealStatus, paymentStatus: DraftStatus)

  /******* Snapshots *******/

  function RankingVersionOf(comparison: Option<Comparison>): string {
    if comparison.Some? then comparison.value.rankingVersion else ""
  }

  /** Everything the hash covers; a total score of zero is hashed like a missing one. */
  function PayloadOf(dealId: Id, policyVersion: string, rankingVersion: string, item: EvaluatedQuote,
      binding: Digest): SnapshotPayload {
    var q := item.quote;
    SnapshotPayload(
      dealId, q.quoteId, q.supplierId, q.sku, q.quantity, q.TotalCost(), q.currency, q.deliveryDays,
      q.warrantyMonths, q.paymentDelayDays, binding, q.supplierRisk, policyVersion, rankingVersion,
      if item.totalScore == Some(0.0) then None else item.totalScore)
  }

  function SnapshotOf(s: Setup, dealId: Id, policyVersion: string, rankingVersion: string, item: EvaluatedQuote,
      binding: Digest)
    : ApprovalSnapshot
  {
    var q := item.quote;
    ApprovalSnapshot(
      q.quoteId, q.supplierId, q.sku, q.quantity, q.TotalCost(), q.currency, q.deliveryDays, q.warrantyMonths,
      q.paymentDelayDays, binding, q.supplierRisk, policyVersion, rankingVersion, item.totalScore,
      s.snapshotHash(PayloadOf(dealId, policyVersion, rankingVersion, item, binding)))
  }

  /** The snapshot repeats every term of the evaluated quote, at its total price. */
  predicate Shows(snapshot: ApprovalSnapshot, item: EvaluatedQuote) {
    && snapshot.quoteId == item.quote.quoteId && snapshot.supplierId == item.quote.supplierId
    && snapshot.sku == item.quote.sku && snapshot.quantity == item.quote.quantity
    && snapshot.totalCost == item.quote.unitPrice * item.quote.quantity as real + item.quote.deliveryFee
    && snapshot.currency == item.quote.currency && snapshot.deliveryDays == item.quote.deliveryDays
    && snapshot.warrantyMonths == item.quote.warrantyMonths
    && snapshot.paymentDelayDays == item.quote.paymentDelayDays
    && snapshot.supplierRisk == item.quote.supplierRisk && snapshot.totalScore == item.totalScore
  }

  lemma SnapshotShows(s: Setup, dealId: Id, policyVersion: string, rankingVersion: string, item: EvaluatedQuote,
      binding: Digest)
    ensures var snapshot := SnapshotOf(s, dealId, policyVersion, rankingVersion, item, binding);
            && Shows(snapshot, item) && snapshot.bankRequisitesHash == binding
            && snapshot.policyVersion == policyVersion && snapshot.rankingVersion == rankingVersion
            && snapshot.snapshotHash == s.snapshotHash(PayloadOf(dealId, policyVersion, rankingVersion, item, binding))
  {
  }

  /** Two approvals are hashed alike iff the deal, both versions, the binding and every term of the quote are the
      same; no score and a score of zero count as the same. */
  lemma PayloadsEqualIff(dealId: Id, policy: string, ranking: string, a: EvaluatedQuote, binding: Digest,
      otherId: Id, otherPolicy: string, otherRanking: string, b: EvaluatedQuote, otherBinding: Digest)
    ensures PayloadOf(dealId, policy, ranking, a, binding)
          == PayloadOf(otherId, otherPolicy, otherRanking, b, otherBinding)
        <==> && dealId == otherId && policy == otherPolicy && ranking == otherRanking && binding == otherBinding
             && a.quote.quoteId == b.quote.quoteId && a.quote.supplierId == b.quote.supplierId
             && a.quote.sku == b.quote.sku && a.quote.quantity == b.quote.quantity
             && a.quote.unitPrice * a.quote.quantity as real + a.quote.deliveryFee
                  == b.quote.unitPrice * b.quote.quantity as real + b.quote.deliveryFee
             && a.quote.currency == b.quote.currency && a.quote.deliveryDays == b.quote.deliveryDays
             && a.quote.warrantyMonths == b.quote.warrantyMonths
             && a.quote.paymentDelayDays == b.quote.paymentDelayDays
             && a.quote.supplierRisk == b.quote.supplierRisk
             && (a.totalScore == b.totalScore
                 || (a.totalScore in {None, Some(0.0)} && b.totalScore in {None, Some(0.0)}))
  {
  }

  /** Raises when the supplier is absent from the registry or inactive. */
  function BuildSnapshot(s: Setup, deal: Deal, item: EvaluatedQuote): Result<ApprovalSnapshot, TrustError> {
    match RecipientBinding(s.controls, item.quote.supplierId)
    case Err(error) => Err(error)
    case Ok(binding) =>
      Ok(SnapshotOf(s, deal.dealId, deal.mandate.version, RankingVersionOf(deal.comparison), item, binding))
  }

  /******* The workflow's records *******/

  function PreviewSnapshot(s: Setup, draft: Deal, comparison: Option<Comparison>)
    : Result<Option<ApprovalSnapshot>, TrustError>
  {
    if draft.approvalSnapshot.Some? || comparison.None? || comparison.value.recommendedQuoteId.None?
    then Ok(draft.approvalSnapshot)
    else
      match FindEvaluated(comparison.value.evaluatedQuotes, comparison.value.recommendedQuoteId.value)
      case None => Ok(None)
      case Some(item) =>
        if !item.eligible then Ok(None)
        else
          match BuildSnapshot(s, draft.(comparison := comparison), item)
          case Ok(snapshot) => Ok(Some(snapshot))
          case Err(error) => Err(error)
  }

  /** `_record_from_state`: everything a workflow record does not name falls back to its default. */
  function RecordFromState(s: Setup, draft: Deal, ws: Workflow.WorkflowState, now: Time): Result<Deal, TrustError> {
    match PreviewSnapshot(s, draft, ws.comparison)
    case Err(error) => Err(error)
    case Ok(snapshot) =>
      Ok(Deal(
        dealId := draft.dealId, status := ws.status, intent := draft.intent, mandate := draft.mandate,
        supplierIds := ws.supplierIds, quotes := ws.quotes, comparison := ws.comparison,
        selectedQuoteId := None, orderId := None, paymentDraftId := None, approvalSnapshot := snapshot,
        order := None, paymentDraft := None, humanDecision := None, purchaseIntent := None,
        ledgerAnchor := None, oracle := None, policyDecisions := [], fraudDecisions := [], fulfillment := [],
        documents := [], errors := ws.errors, events := ws.events, updatedAt := now))
  }

  /** The record written when the workflow raises: the old draft, failed. */
  function FailedRecord(draft: Deal, now: Time): Deal {
    draft.(status := Failed, errors := draft.errors + [WorkflowRaised], events := draft.events + [WorkflowFailed],
        updatedAt := now)
  }

  function InitialState(draft: Deal): Workflow.WorkflowState {
    Workflow.WorkflowState(draft.supplierIds, draft.quotes, draft.comparison, draft.status, draft.errors, draft.events)
  }

  function JobOf(draft: Deal, minimumQuotes: nat): Workflow.Job {
    Workflow.Job(draft.intent, draft.mandate, minimumQuotes)
  }

  /** What the world contributes to each node, and the instant of each put. */
  type Feed = Workflow.Node -> Workflow.Inputs
  type Clock = nat -> Time

  function NodesAhead(node: Option<Workflow.Node>): nat {
    match node
    case None => 0
    case Some(n) => Workflow.NodesLeft(n)
  }

  /** The records that `_process` puts from a state on, in order: one for every state the graph yields, and
      one more at the end, of the last state or, if anything raised, of the failed draft. The `k`-th put
      happens at `clock(k)`. */
  function ProcessPuts(s: Setup, job: Workflow.Job, draft: Deal, ws: Workflow.WorkflowState,
      node: Option<Workflow.Node>, inputs: Feed, clock: Clock, k: nat): seq<Deal>
    decreases NodesAhead(node)
  {
    match RecordFromState(s, draft, ws, clock(k))
    case Err(_) => [FailedRecord(draft, clock(k))]
    case Ok(record) =>
      match node
      case None => [record, record.(updatedAt := clock(k + 1))]
      case Some(n) =>
        match Workflow.RunNode(n, job, ws, inputs(n))
        case None => [record, FailedRecord(draft, clock(k + 1))]
        case Some(next) =>
          Workflow.RouteDescends(n, next);
          [record] + ProcessPuts(s, job, draft, next, Workflow.Route(n, next), inputs, clock, k + 1)
  }

  lemma ProcessGoesOn(s: Setup, job: Workflow.Job, draft: Deal, ws: Workflow.WorkflowState, node: Workflow.Node,
                      inputs: Feed, clock: Clock, k: nat)
    requires RecordFromState(s, draft, ws, clock(k)).Ok?
    ensures ProcessPuts(s, job, draft, ws, Some(node), inputs, clock, k)
         == [RecordFromState(s, draft, ws, clock(k)).value]
            + match Workflow.RunNode(node, job, ws, inputs(node))
              case None => [FailedRecord(draft, clock(k + 1))]
              case Some(next) => ProcessPuts(s, job, draft, next, Workflow.Route(node, next), inputs, clock, k + 1)
  {
  }

  lemma ProcessEnds(s: Setup, job: Workflow.Job, draft: Deal, ws: Workflow.WorkflowState, node: Option<Workflow.Node>,
                    inputs: Feed, clock: Clock, k: nat)
    requires RecordFromState(s, draft, ws, clock(k)).Ok? ==> node.None?
    ensures ProcessPuts(s, job, draft, ws, node, inputs, clock, k)
         == match RecordFromState(s, draft, ws, clock(k))
            case Err(_) => [FailedRecord(draft, clock(k))]
            case Ok(record) => [record] + [record.(updatedAt := clock(k + 1))]
  {
  }

  /** `_create_draft`. */
  function NewDraft(dealId: Id, intent: Intent, mandate: Mandate, now: Time): Deal {
    Deal(dealId, Draft, intent, mandate, [], [], None, None, None, None, None, None, None, None, None, None, None,
         [], [], [], [], [], [DealCreated], now)
  }

  /******* approve *******/

  predicate AlreadyOrdered(status: DealStatus) {
    status == PaymentSignatureRequired || status == OrderCreated || status == Completed
  }

  datatype ApprovalStart = Answered(answer: Result<ApprovalResult, DealError>) | Calls(call: Call)

  function Refused(reason: Reason): ApprovalStart {
    Answered(Err(Conflict(reason)))
  }

  function ReplayedApproval(dealId: Id, deal: Deal, quoteId: Id): Result<ApprovalResult, DealError> {
    if deal.selectedQuoteId == Some(quoteId) && deal.orderId.Some? && deal.paymentDraftId.Some? then
      Ok(ApprovalResult(dealId, deal.status, quoteId, deal.orderId.value, deal.paymentDraftId.value,
                        if deal.approvalSnapshot.Some? then deal.approvalSnapshot.value.snapshotHash else ""))
    else Err(Conflict(OtherOrderExists))
  }

  /** Everything `approve` does before it calls the trust service, check by check. */
  function StartApproval(s: Setup, dealId: Id, deal: Deal, approval: Approval, now: Time): ApprovalStart {
    if AlreadyOrdered(deal.status) then Answered(ReplayedApproval(dealId, deal, approval.quoteId))
    else if deal.status != AwaitingApproval then Refused(NotAwaitingApproval)
    else if approval.kind != Approve then Refused(UseDecisionEndpoint)
    else if approval.approvedBy != deal.mandate.authorizedBy then Refused(ApproverNotAuthorized)
    else if !deal.mandate.Permits(FinalOfferAcceptance, now) then Refused(AcceptanceNotPermitted)
    else if deal.mandate.expiresAt <= now then Refused(MandateHasExpired)
    else if deal.comparison.None? then Refused(NoComparison)
    else
      match FindEvaluated(deal.comparison.value.evaluatedQuotes, approval.quoteId)
      case None => Refused(QuoteMissingOrIneligible)
      case Some(item) => StartWithQuote(s, dealId, deal, approval, item, now)
  }

  function StartWithQuote(s: Setup, dealId: Id, deal: Deal, approval: Approval, item: EvaluatedQuote,
      now: Time): ApprovalStart {
    if !item.eligible then Refused(QuoteMissingOrIneligible)
    else if item.quote.validUntil <= now then Refused(QuoteHasExpired)
    else
      match BuildSnapshot(s, deal, item)
      case Err(error) => Answered(Err(ControlRaised(error)))
      case Ok(snapshot) =>
        if approval.snapshotHash != snapshot.snapshotHash then Refused(SnapshotHashMismatch)
        else if deal.mandate.requiredApprovals == {} then Answered(Err(NoRequiredApproval))
        else Calls(Call(deal, item.quote, snapshot,
            HumanDecision(Approve, approval.approvedBy, snapshot.snapshotHash), dealId))
  }

  function ApprovalEvents(approval: Approval, snapshot: ApprovalSnapshot, a: Artifacts): seq<Event> {
    [QuoteApproved(approval.approvedBy, snapshot.snapshotHash), PurchaseIntentAnchored(a.anchor.currentHash),
     OracleVerified, PaymentDraftCreated(a.paymentDraft.paymentDraftId)]
  }

  /** The record an approval writes; `call` is the one the trust service answered with `a`. */
  function ApprovedRecord(approval: Approval, call: Call, a: Artifacts, now: Time): Deal {
    var orderId := a.paymentDraft.orderId;
    call.deal.(
      status := PaymentSignatureRequired, selectedQuoteId := Some(approval.quoteId), orderId := Some(orderId),
      paymentDraftId := Some(a.paymentDraft.paymentDraftId), approvalSnapshot := Some(call.snapshot),
      order := Some(Order(orderId, call.quote.supplierId, approval.quoteId)), paymentDraft := Some(a.paymentDraft),
      humanDecision := Some(call.decision), purchaseIntent := Some(a.purchaseIntent), ledgerAnchor := Some(a.anchor),
      oracle := Some(a.oracle), policyDecisions := call.deal.policyDecisions + [a.policy],
      fraudDecisions := call.deal.fraudDecisions + [a.fraud], updatedAt := now,
      events := call.deal.events + ApprovalEvents(approval, call.snapshot, a))
  }

  function ApprovalAnswer(dealId: Id, approval: Approval, call: Call, a: Artifacts): ApprovalResult {
    ApprovalResult(dealId, PaymentSignatureRequired, approval.quoteId, a.paymentDraft.orderId,
                   a.paymentDraft.paymentDraftId, call.snapshot.snapshotHash)
  }

  function ErrorOf(error: TrustError): DealError {
    if error == AppendRaised then LedgerRaised else Conflict(TrustRefused(error))
  }

  /******* decide *******/

  /** `decide` for a rejection or a request for changes. */
  function DecidedRecord(deal: Deal, approval: Approval, now: Time): Result<Deal, DealError> {
    if deal.status != AwaitingApproval then Err(Conflict(NotAwaitingApproval))
    else if approval.approvedBy != deal.mandate.authorizedBy then Err(Conflict(ApproverNotAuthorized))
    else if deal.approvalSnapshot.None? then Err(Conflict(SnapshotMissing))
    else if approval.snapshotHash != deal.approvalSnapshot.value.snapshotHash then Err(Conflict(SnapshotHashMismatch))
    else if deal.mandate.requiredApprovals == {} then Err(NoRequiredApproval)
    else Ok(deal.(
      status := if approval.kind == Reject then Rejected else ChangesRequested,
      humanDecision := Some(HumanDecision(approval.kind, approval.approvedBy, approval.snapshotHash)),
      updatedAt := now, events := deal.events + [HumanDecided(approval.kind, approval.snapshotHash)]))
  }

  /******* sign_payment *******/

  datatype SignatureStart = SignatureAnswered(answer: Result<SignatureResult, DealError>) | Signs(quote: Quote)

  function SignatureRefused(reason: Reason): SignatureStart {
    SignatureAnswered(Err(Conflict(reason)))
  }

  function StartSignature(dealId: Id, deal: Deal, request: SignatureRequest, now: Time): SignatureStart {
    if deal.status == Completed && deal.paymentDraft.Some? then
      SignatureAnswered(Ok(SignatureResult(dealId, deal.paymentDraft.value.paymentDraftId, deal.status,
          deal.paymentDraft.value.status)))
    else if deal.status != PaymentSignatureRequired then SignatureRefused(NotAwaitingSignature)
    else if !deal.mandate.Permits(EdoAction, now) then SignatureRefused(FulfillmentNotPermitted)
    else if !request.confirmation then SignatureRefused(ConfirmationRequired)
    else if request.signedBy != deal.mandate.authorizedBy then SignatureRefused(SignerNotAuthorized)
    else if deal.paymentDraft.None? || deal.paymentDraftId != Some(request.paymentDraftId)
        then SignatureRefused(DraftIdMismatch)
    else if deal.selectedQuoteId.None? then SignatureRefused(StateIncomplete)
    else
      match FindQuote(deal.quotes, deal.selectedQuoteId.value)
      case None => SignatureRefused(StateIncomplete)
      case Some(quote) =>
        if deal.orderId.None? || deal.approvalSnapshot.None? then SignatureRefused(StateIncomplete) else Signs(quote)
  }

  const TIMELINE: seq<nat> := [0, 1, 2, 3, 4, 5]

  /** The three documents come from the winning supplier's exchange and take the next unused ids. */
  function DocumentsFor(supplierId: AgentId, documentId: Id): seq<Document> {
    var source := "mock-edo:" + supplierId;
    [Document(documentId, source), Document(documentId + 1, source), Document(documentId + 2, source)]
  }

  function Others(suppliers: seq<AgentId>, winner: AgentId): seq<AgentId> {
    if suppliers == [] then []
    else (if suppliers[0] == winner then [] else [suppliers[0]]) + Others(suppliers[1..], winner)
  }

  function LifecycleEvents(deal: Deal, request: SignatureRequest, quote: Quote, documents: seq<Document>): seq<Event>
    requires deal.approvalSnapshot.Some? && deal.orderId.Some?
  {
    var hash := deal.approvalSnapshot.value.snapshotHash;
    var others := Others(deal.supplierIds, quote.supplierId);
    [PaymentDraftSigned(request.paymentDraftId), SnapshotCreated(hash), QuoteApproved(request.signedBy, hash),
        AwardSent(quote.supplierId)]
    + seq(|others|, i requires 0 <= i < |others| => SupplierRejected(others[i]))
    + [OrderConfirmed(quote.supplierId, deal.orderId.value), PaymentDraftCreated(request.paymentDraftId)]
    + seq(|TIMELINE|, i requires 0 <= i < |TIMELINE| => FulfillmentUpdated(TIMELINE[i]))
    + seq(|documents|, i requires 0 <= i < |documents| => DocumentRegistered(documents[i].documentId))
    + [DealCompleted(deal.orderId.value)]
  }

  function SignedRecord(deal: Deal, request: SignatureRequest, quote: Quote, documentId: Id, now: Time): Deal
    requires deal.approvalSnapshot.Some? && deal.orderId.Some? && deal.paymentDraft.Some?
  {
    var documents := DocumentsFor(quote.supplierId, documentId);
    deal.(status := Completed, paymentDraft := Some(deal.paymentDraft.value.(status := Signed)),
          fulfillment := TIMELINE, documents := documents, updatedAt := now,
          events := deal.events + LifecycleEvents(deal, request, quote, documents))
  }

  /** What a signed deal sends; nothing without an order and a draft. */
  function MessagesOf(deal: Deal, quote: Quote): seq<Message> {
    if deal.orderId.None? || deal.paymentDraftId.None? then []
    else DealMessages(deal.dealId, deal.supplierIds, quote.supplierId, deal.documents)
  }

  function SignatureAnswer(dealId: Id, request: SignatureRequest): SignatureResult {
    SignatureResult(dealId, request.paymentDraftId, Completed, Signed)
  }

  /******* The steps on the whole state *******/

  datatype ServiceState = ServiceState(tables: Tables, trust: TrustState, outbox: seq<Message>)

  function ApproveStep(s: Setup, st: ServiceState, dealId: Id, approval: Approval, now: Time)
    : (ServiceState, Result<ApprovalResult, DealError>)
  {
    match SqlGet(st.tables, dealId)
    case Err(_) => (st, Err(NotFound))
    case Ok(deal) =>
      match StartApproval(s, dealId, deal, approval, now)
      case Answered(answer) => (st, answer)
      case Calls(call) => PurchaseStep(s, st, dealId, approval, call, now)
  }

  function PurchaseStep(s: Setup, st: ServiceState, dealId: Id, approval: Approval, call: Call, now: Time)
    : (ServiceState, Result<ApprovalResult, DealError>)
  {
    var done := Process(s.controls, st.trust, call, now);
    match Outcome(done.1)
    case Err(error) => (st.(trust := done.0), Err(ErrorOf(error)))
    case Ok(a) =>
      match SqlPut(st.tables, ApprovedRecord(approval, call, a, now))
      case Err(_) => (st.(trust := done.0), Err(StoreRaised))
      case Ok(tables) => (st.(trust := done.0, tables := tables), Ok(ApprovalAnswer(dealId, approval, call, a)))
  }

  function DecideStep(s: Setup, st: ServiceState, dealId: Id, approval: Approval, now: Time)
    : (ServiceState, Result<Deal, DealError>)
  {
    if approval.kind == Approve then
      var done := ApproveStep(s, st, dealId, approval, now);
      match done.1
      case Err(error) => (done.0, Err(error))
      case Ok(_) => (done.0, match SqlGet(done.0.tables, dealId) case Ok(deal) => Ok(deal) case Err(_) => Err(NotFound))
    else
      match SqlGet(st.tables, dealId)
      case Err(_) => (st, Err(NotFound))
      case Ok(deal) =>
        match DecidedRecord(deal, approval, now)
        case Err(error) => (st, Err(error))
        case Ok(updated) =>
          match SqlPut(st.tables, updated)
          case Err(_) => (st, Err(StoreRaised))
          case Ok(tables) => (st.(tables := tables), Ok(updated))
  }

  function SignStep(st: ServiceState, dealId: Id, request: SignatureRequest, documentId: Id, now: Time)
    : (ServiceState, Result<SignatureResult, DealError>)
  {
    match SqlGet(st.tables, dealId)
    case Err(_) => (st, Err(NotFound))
    case Ok(deal) =>
      match StartSignature(dealId, deal, request, now)
      case SignatureAnswered(answer) => (st, answer)
      case Signs(quote) =>
        var updated := SignedRecord(deal, request, quote, documentId, now);
        match SqlPut(st.tables, updated)
        case Err(_) => (st, Err(StoreRaised))
        case Ok(tables) =>
          (st.(tables := tables, outbox := Publish(AppendAll(st.outbox, MessagesOf(updated, quote)), deal.dealId)),
           Ok(SignatureAnswer(dealId, request)))
  }

  /******* Replays *******/

  /** A stored record comes back whole, with at least the events it was put with. */
  lemma GetAfterPut(tables: Tables, deal: Deal)
    requires WellFormed(tables) && SqlPut(tables, deal).Ok?
    ensures SqlGet(AfterPut(tables, deal), deal.dealId) ==
        Ok(deal.(events := Stored(AfterPut(tables, deal), deal.dealId)))
  {
    PutWellFormed(tables, deal);
    RecordIs(AfterPut(tables, deal), deal.dealId);
  }

  lemma StoredUnderItsId(tables: Tables, dealId: Id)
    requires WellFormed(tables)
    ensures SqlGet(tables, dealId).Ok? ==> SqlGet(tables, dealId).value.dealId == dealId
  {
    if dealId in tables.rows { RecordIs(tables, dealId); }
  }

  predicate SameAnswer(a: Result<ApprovalResult, DealError>, b: Result<ApprovalResult, DealError>) {
    && a.Ok? && b.Ok?
    && a.value.orderId == b.value.orderId
    && a.value.paymentDraftId == b.value.paymentDraftId
    && a.value.snapshotHash == b.value.snapshotHash
  }

  /** After an approval, the same quote can be approved again with any hash, by anybody, at any time:
      the answer carries the same ids and nothing changes. Any other quote is refused, also without a change. */
  lemma ApprovalReplays(s: Setup, st: ServiceState, dealId: Id, approval: Approval, now: Time, again: Approval,
      later: Time)
    requires WellFormed(st.tables) && ApproveStep(s, st, dealId, approval, now).1.Ok?
    ensures var first := ApproveStep(s, st, dealId, approval, now);
            var second := ApproveStep(s, first.0, dealId, again, later);
            && second.0 == first.0
            && (again.quoteId == approval.quoteId ==> SameAnswer(second.1, first.1))
            && (again.quoteId != approval.quoteId ==> second.1 == Err(Conflict(OtherOrderExists)))
  {
    StoredUnderItsId(st.tables, dealId);
    var deal := SqlGet(st.tables, dealId).value;
    if !AlreadyOrdered(deal.status) {
      var call := StartApproval(s, dealId, deal, approval, now).call;
      assert call.deal == deal;
      var a := Outcome(Process(s.controls, st.trust, call, now).1).value;
      GetAfterPut(st.tables, ApprovedRecord(approval, call, a, now));
    }
  }

  lemma StoredLog(tables: Tables, dealId: Id)
    requires WellFormed(tables) && SqlGet(tables, dealId).Ok?
    ensures SqlGet(tables, dealId).value.events == Stored(tables, dealId)
  {
    RecordIs(tables, dealId);
  }

  /** The stored log of a put that extends the one that was read. */
  lemma LogAfterPut(tables: Tables, deal: Deal, before: Deal)
    requires WellFormed(tables) && SqlGet(tables, deal.dealId) == Ok(before) && before.events < deal.events
    requires SqlPut(tables, deal).Ok?
    ensures SqlGet(AfterPut(tables, deal), deal.dealId) == Ok(deal)
  {
    hide WellFormed, ToRecord, Stored, SqlPut, AfterPut;
    GetAfterPut(tables, deal);
    StoredLog(tables, deal.dealId);
    PutGrowsLog(tables, deal, deal.dealId);
    assert before.events + deal.events[|before.events|..] == deal.events;
  }

  lemma PutIs(tables: Tables, deal: Deal)
    ensures SqlPut(tables, deal).Ok? ==> AfterPut(tables, deal) == SqlPut(tables, deal).value
  {
  }

  /** What an accepted approval leaves in the store is what it answered: the quote, order, draft and hash of the
      answer, and a log that continues the old one with the approval, the anchor of its intent, the oracle and the
      draft. */
  lemma ApprovalIsRecorded(s: Setup, st: ServiceState, dealId: Id, approval: Approval, now: Time)
    requires WellFormed(st.tables) && ApproveStep(s, st, dealId, approval, now).1.Ok?
    requires SqlGet(st.tables, dealId).value.status == AwaitingApproval
    ensures var before, after := SqlGet(st.tables, dealId).value, ApproveStep(s, st, dealId, approval, now);
            && SqlGet(after.0.tables, dealId).Ok?
            && var record, answer := SqlGet(after.0.tables, dealId).value, after.1.value;
            && answer.dealId == dealId && answer.selectedQuoteId == approval.quoteId
            && record.status == answer.status == PaymentSignatureRequired && record.updatedAt == now
            && record.selectedQuoteId == Some(approval.quoteId) && record.orderId == Some(answer.orderId)
            && record.paymentDraftId == Some(answer.paymentDraftId)
            && record.approvalSnapshot.Some? && record.approvalSnapshot.value.snapshotHash == answer.snapshotHash
            && record.ledgerAnchor.Some?
            && record.events == before.events + [
                 QuoteApproved(approval.approvedBy, answer.snapshotHash),
                 PurchaseIntentAnchored(record.ledgerAnchor.value.currentHash), OracleVerified,
                 PaymentDraftCreated(answer.paymentDraftId)]
  {
    hide Process, BuildSnapshot, WellFormed, ToRecord, SqlPut, AfterPut;
    StoredUnderItsId(st.tables, dealId);
    var deal := SqlGet(st.tables, dealId).value;
    var call := StartApproval(s, dealId, deal, approval, now).call;
    var a := Outcome(Process(s.controls, st.trust, call, now).1).value;
    var record := ApprovedRecord(approval, call, a, now);
    assert call.deal == deal;
    LogAfterPut(st.tables, record, deal);
    PutIs(st.tables, record);
  }

  /** What an accepted signature leaves in the store is what it answered: the same record with its draft signed, the
      six steps of the fulfilment, three documents, and a log that continues the old one with the life of the deal. */
  lemma SignatureIsRecorded(st: ServiceState, dealId: Id, request: SignatureRequest, documentId: Id, now: Time)
    requires WellFormed(st.tables) && SignStep(st, dealId, request, documentId, now).1.Ok?
    requires SqlGet(st.tables, dealId).value.status == PaymentSignatureRequired
    ensures var before, after := SqlGet(st.tables, dealId).value, SignStep(st, dealId, request, documentId, now);
            && after.1.value == SignatureResult(dealId, request.paymentDraftId, Completed, Signed)
            && before.paymentDraft.Some? && before.approvalSnapshot.Some? && before.orderId.Some?
            && before.selectedQuoteId.Some? && FindQuote(before.quotes, before.selectedQuoteId.value).Some?
            && SqlGet(after.0.tables, dealId).Ok?
            && var quote, record := FindQuote(before.quotes, before.selectedQuoteId.value).value,
                SqlGet(after.0.tables, dealId).value;
            && record == before.(
                 status := Completed, paymentDraft := Some(before.paymentDraft.value.(status := Signed)),
                 fulfillment := [0, 1, 2, 3, 4, 5], documents := record.documents, updatedAt := now,
                 events := before.events + LifecycleEvents(before, request, quote, record.documents))
            && record.documents == [
                 Document(documentId, "mock-edo:" + quote.supplierId),
                 Document(documentId + 1, "mock-edo:" + quote.supplierId),
                 Document(documentId + 2, "mock-edo:" + quote.supplierId)]
  {
    hide LifecycleEvents, WellFormed, ToRecord, SqlPut, AfterPut, DealMessages, AppendAll, Publish;
    StoredUnderItsId(st.tables, dealId);
    var deal := SqlGet(st.tables, dealId).value;
    var quote := StartSignature(dealId, deal, request, now).quote;
    var record := SignedRecord(deal, request, quote, documentId, now);
    LifecycleExact(deal, request, quote, record.documents, OracleVerified);
    LogAfterPut(st.tables, record, deal);
    PutIs(st.tables, record);
  }

  /** A signature is given once: repeating it, in any form, changes neither record nor outbox. */
  lemma SignatureReplays(st: ServiceState, dealId: Id, request: SignatureRequest, documentId: Id, now: Time,
                         again: SignatureRequest, otherId: Id, later: Time)
    requires WellFormed(st.tables) && SignStep(st, dealId, request, documentId, now).1.Ok?
    ensures var first := SignStep(st, dealId, request, documentId, now);
            var second := SignStep(first.0, dealId, again, otherId, later);
            second.0 == first.0 && second.1.Ok? && second.1.value.status == Completed
  {
    StoredUnderItsId(st.tables, dealId);
    var deal := SqlGet(st.tables, dealId).value;
    if StartSignature(dealId, deal, request, now).Signs? {
      GetAfterPut(st.tables, SignedRecord(deal, request,
          StartSignature(dealId, deal, request, now).quote, documentId, now));
    }
  }

  /** A rejection or a request for changes is final: the deal can be neither approved, decided again nor signed. */
  lemma DecisionIsFinal(s: Setup, st: ServiceState, dealId: Id, approval: Approval, now: Time, again: Approval,
                        request: SignatureRequest, documentId: Id, later: Time)
    requires WellFormed(st.tables) && approval.kind != Approve && DecideStep(s, st, dealId, approval, now).1.Ok?
    ensures var st' := DecideStep(s, st, dealId, approval, now).0;
            && ApproveStep(s, st', dealId, again, later) == (st', Err(Conflict(NotAwaitingApproval)))
            && DecideStep(s, st', dealId, again, later) == (st', Err(Conflict(NotAwaitingApproval)))
            && SignStep(st', dealId, request, documentId, later) == (st', Err(Conflict(NotAwaitingSignature)))
  {
    hide Process, StartWithQuote, LifecycleEvents, WellFormed, ToRecord;
    StoredUnderItsId(st.tables, dealId);
    var deal := SqlGet(st.tables, dealId).value;
    GetAfterPut(st.tables, DecidedRecord(deal, approval, now).value);
  }

  /******* What is accepted *******/

  /** An approval reaches the trust service iff the deal awaits it, it is an approval by the authorised
      person under a mandate in force that permits acceptance and names a required role, and the quote is
      an eligible, unexpired one of an active supplier under the hash of its current terms. */
  lemma ApprovalAccepted(s: Setup, dealId: Id, deal: Deal, approval: Approval, now: Time)
    ensures StartApproval(s, dealId, deal, approval, now).Calls? <==>
              && deal.status == AwaitingApproval && approval.kind == Approve
              && approval.approvedBy == deal.mandate.authorizedBy && deal.mandate.requiredApprovals != {}
              && deal.mandate.revokedAt.None? && deal.mandate.validFrom <= now < deal.mandate.expiresAt
              && FinalOfferAcceptance in deal.mandate.allowedActions
              && FinalOfferAcceptance !in deal.mandate.forbiddenActions
              && deal.comparison.Some?
              && var found := FindEvaluated(deal.comparison.value.evaluatedQuotes, approval.quoteId);
              && found.Some? && found.value.eligible && found.value.quote.validUntil > now
              && var supplier := FindSupplier(s.controls.suppliers, found.value.quote.supplierId);
              && supplier.Ok?
              && approval.snapshotHash == s.snapshotHash(PayloadOf(
                   deal.dealId, deal.mandate.version, deal.comparison.value.rankingVersion, found.value,
                   supplier.value.bankBindingHash))
  {
  }

  lemma {:induction false} OthersAre(suppliers: seq<AgentId>, winner: AgentId, s: AgentId)
    ensures s in Others(suppliers, winner) <==> s in suppliers && s != winner
  {
    if suppliers != [] {
      OthersAre(suppliers[1..], winner, s);
      assert suppliers == [suppliers[0]] + suppliers[1..];
    }
  }

  lemma InFour(a: Event, b: Event, c: Event, d: Event, e: Event)
    ensures e in [a, b, c, d] <==> e == a || e == b || e == c || e == d
  {
  }

  lemma InParts(a: seq<Event>, b: seq<Event>, c: seq<Event>, d: seq<Event>, f: seq<Event>, g: seq<Event>, e: Event)
    ensures e in a + b + c + d + f + g <==> e in a || e in b || e in c || e in d || e in f || e in g
  {
  }

  /** What a signature adds to the log: the signature and the snapshot it rests on, the award and the rejections,
      the order and its draft, the six steps of the fulfilment, the documents, and the completion, and nothing
      else. */
  lemma LifecycleExact(deal: Deal, request: SignatureRequest, quote: Quote, documents: seq<Document>, e: Event)
    requires deal.approvalSnapshot.Some? && deal.orderId.Some?
    ensures var events, hash := LifecycleEvents(deal, request, quote, documents),
                deal.approvalSnapshot.value.snapshotHash;
            && events != [] && events[0] == PaymentDraftSigned(request.paymentDraftId)
            && events[|events| - 1] == DealCompleted(deal.orderId.value)
            && (e in events <==>
                 match e
                 case PaymentDraftSigned(draftId) => draftId == request.paymentDraftId
                 case SnapshotCreated(h) => h == hash
                 case QuoteApproved(approver, h) => approver == request.signedBy && h == hash
                 case AwardSent(s) => s == quote.supplierId
                 case SupplierRejected(s) => s in deal.supplierIds && s != quote.supplierId
                 case OrderConfirmed(s, orderId) => s == quote.supplierId && orderId == deal.orderId.value
                 case PaymentDraftCreated(draftId) => draftId == request.paymentDraftId
                 case FulfillmentUpdated(step) => step <= 5
                 case DocumentRegistered(id) => exists d :: d in documents && d.documentId == id
                 case DealCompleted(orderId) => orderId == deal.orderId.value
                 case _ => false)
  {
    var hash, others := deal.approvalSnapshot.value.snapshotHash, Others(deal.supplierIds, quote.supplierId);
    var head := [PaymentDraftSigned(request.paymentDraftId), SnapshotCreated(hash),
        QuoteApproved(request.signedBy, hash), AwardSent(quote.supplierId)];
    var rejected := seq(|others|, i requires 0 <= i < |others| => SupplierRejected(others[i]));
    var order := [OrderConfirmed(quote.supplierId, deal.orderId.value), PaymentDraftCreated(request.paymentDraftId)];
    var steps := seq(|TIMELINE|, i requires 0 <= i < |TIMELINE| => FulfillmentUpdated(TIMELINE[i]));
    var files := seq(|documents|, i requires 0 <= i < |documents| => DocumentRegistered(documents[i].documentId));
    var end := [DealCompleted(deal.orderId.value)];
    RejectedIn(deal.supplierIds, quote.supplierId, rejected, e);
    StepsIn(steps, e);
    FilesIn(documents, files, e);
    InParts(head, rejected, order, steps, files, end, e);
    var events := LifecycleEvents(deal, request, quote, documents);
    assert events == head + rejected + order + steps + files + end;
    assert events[0] == head[0];
    hide Others, LifecycleEvents, TIMELINE;
    InFour(head[0], head[1], head[2], head[3], e);
    assert e in order <==> e == order[0] || e == order[1];
  }

  lemma RejectedIn(suppliers: seq<AgentId>, winner: AgentId, rejected: seq<Event>, e: Event)
    requires var others := Others(suppliers, winner);
             rejected == seq(|others|, i requires 0 <= i < |others| => SupplierRejected(others[i]))
    ensures e in rejected <==> e.SupplierRejected? && e.supplierId in suppliers && e.supplierId != winner
  {
    if e.SupplierRejected? {
      OthersAre(suppliers, winner, e.supplierId);
      if e.supplierId in Others(suppliers, winner) {
        var i :| 0 <= i < |rejected| && Others(suppliers, winner)[i] == e.supplierId;
        assert rejected[i] == e;
      }
    }
  }

  lemma StepsIn(steps: seq<Event>, e: Event)
    requires steps == seq(|TIMELINE|, i requires 0 <= i < |TIMELINE| => FulfillmentUpdated(TIMELINE[i]))
    ensures e in steps <==> e.FulfillmentUpdated? && e.step <= 5
  {
    if e.FulfillmentUpdated? && e.step <= 5 { assert steps[e.step] == e; }
  }

  lemma FilesIn(documents: seq<Document>, files: seq<Event>, e: Event)
    requires files == seq(|documents|, i requires 0 <= i < |documents| => DocumentRegistered(documents[i].documentId))
    ensures e in files <==> e.DocumentRegistered? && exists d :: d in documents && d.documentId == e.documentId
  {
    if e.DocumentRegistered? && exists d :: d in documents && d.documentId == e.documentId {
      var d :| d in documents && d.documentId == e.documentId;
      var i :| 0 <= i < |documents| && documents[i] == d;
      assert files[i] == e;
    }
    if e in files {
      var i :| 0 <= i < |files| && files[i] == e;
      assert documents[i] in documents;
    }
  }

  /** The log of a signed deal announces what its messages say: an award event for a supplier iff there is
      an award for it, a rejection event iff there is a rejection, and a document event iff there is a message
      for the document. */
  lemma AnnouncedAsSent(deal: Deal, request: SignatureRequest, quote: Quote, documents: seq<Document>, s: AgentId,
      id: Id)
    requires deal.approvalSnapshot.Some? && deal.orderId.Some?
    ensures var events := LifecycleEvents(deal, request, quote, documents);
            var messages := DealMessages(deal.dealId, deal.supplierIds, quote.supplierId, documents);
            && (AwardSent(s) in events <==> HasKey(messages, AwardKey(deal.dealId, s)))
            && (SupplierRejected(s) in events <==> HasKey(messages, RejectionKey(deal.dealId, s)))
            && (DocumentRegistered(id) in events <==> HasKey(messages, DocumentKey(deal.dealId, id)))
            && events[|events| - 1] == DealCompleted(deal.orderId.value)
  {
    hide LifecycleEvents, DealMessages, HasKey;
    DealMessageKeys(deal.dealId, deal.supplierIds, quote.supplierId, documents, AwardKey(deal.dealId, s));
    DealMessageKeys(deal.dealId, deal.supplierIds, quote.supplierId, documents, RejectionKey(deal.dealId, s));
    DealMessageKeys(deal.dealId, deal.supplierIds, quote.supplierId, documents, DocumentKey(deal.dealId, id));
    LifecycleExact(deal, request, quote, documents, AwardSent(s));
    LifecycleExact(deal, request, quote, documents, SupplierRejected(s));
    LifecycleExact(deal, request, quote, documents, DocumentRegistered(id));
  }

  /******* Preview and approval *******/

  /** The explain node changes no preview. */
  lemma ExplanationIsNotHashed(s: Setup, draft: Deal, ws: Workflow.WorkflowState, inputs: Workflow.Inputs)
    requires ws.comparison.Some?
    ensures PreviewSnapshot(s, draft, Workflow.ExplainNode(ws, inputs).value.comparison)
         == PreviewSnapshot(s, draft, ws.comparison)
  {
  }

  /** For a fresh draft, the snapshot stored with an awaiting deal is the one `approve` recomputes for
      the recommended quote from the stored record, so the displayed hash is the one that is accepted. */
  lemma PreviewIsApproved(s: Setup, draft: Deal, ws: Workflow.WorkflowState, minimumQuotes: nat, written: Time,
                          stored: Deal, approval: Approval, now: Time)
    requires draft.approvalSnapshot.None? && ws.status == AwaitingApproval
    requires Workflow.Ready(JobOf(draft, minimumQuotes), ws)
    requires RecordFromState(s, draft, ws, written).Ok?
    requires stored == RecordFromState(s, draft, ws, written).value.(events := stored.events)
    requires approval.quoteId == ws.comparison.value.recommendedQuoteId.value
    ensures stored.approvalSnapshot.Some?
    ensures StartApproval(s, draft.dealId, stored, approval, now) == Refused(SnapshotHashMismatch)
            ==> approval.snapshotHash != stored.approvalSnapshot.value.snapshotHash
    ensures StartApproval(s, draft.dealId, stored, approval, now).Calls? ==>
              && approval.snapshotHash == stored.approvalSnapshot.value.snapshotHash
              && StartApproval(s, draft.dealId, stored, approval, now).call.snapshot == stored.approvalSnapshot.value
    ensures && approval.kind == Approve && approval.approvedBy == draft.mandate.authorizedBy
            && draft.mandate.Permits(FinalOfferAcceptance, now) && draft.mandate.requiredApprovals != {}
            && ws.comparison.value.evaluatedQuotes[0].quote.validUntil > now
            ==> (StartApproval(s, draft.dealId, stored, approval, now).Calls?
                 <==> approval.snapshotHash == stored.approvalSnapshot.value.snapshotHash)
  {
    var items := ws.comparison.value.evaluatedQuotes;
    assert FindEvaluated(items, approval.quoteId) == Some(items[0]);
  }

  lemma Shifted(done: seq<Deal>, deal: Deal, rest: seq<Deal>)
    ensures done + ([deal] + rest) == done + [deal] + rest
  {
  }

  lemma RunSqlNone(tables: Tables)
    ensures RunSql(tables, []) == tables
  {
  }

  lemma {:induction false} RunSqlOnto(tables: Tables, puts: seq<Deal>, deal: Deal)
    ensures RunSql(tables, puts + [deal]) == AfterPut(RunSql(tables, puts), deal)
    decreases |puts|
  {
    if puts == [] {
      assert (puts + [deal])[1..] == [];
    } else {
      assert (puts + [deal])[1..] == puts[1..] + [deal];
      RunSqlOnto(AfterPut(tables, puts[0]), puts[1..], deal);
    }
  }

  /******* The program *******/

  class DealService {
    const setup: Setup
    const store: SQLAlchemyDealStore
    const outbox: OutboxTable
    const trust: TrustedInfrastructureService

    constructor (setup: Setup, store: SQLAlchemyDealStore, outbox: OutboxTable, trust: TrustedInfrastructureService)
      ensures this.setup == setup && this.store == store && this.outbox == outbox && this.trust == trust
    {
      this.setup, this.store, this.outbox, this.trust := setup, store, outbox, trust;
    }

    ghost predicate Valid() {
      trust.Valid() && trust.controls == setup.controls
    }

    function State(): ServiceState
      reads store, outbox, trust, trust.anchor
    {
      ServiceState(store.tables, trust.State(), outbox.rows)
    }

    /** The workflow task: every state of the graph is put, then the last one again or the failed draft. */
    method ProcessDraft(dealId: Id, minimumQuotes: nat, inputs: Feed, clock: Clock)
      returns (r: Result<Deal, DealError>)
      modifies store
      ensures SqlGet(old(store.tables), dealId).Err? ==> r == Err(NotFound) && store.tables == old(store.tables)
      ensures SqlGet(old(store.tables), dealId).Ok? ==>
                var draft := SqlGet(old(store.tables), dealId).value;
                var puts := ProcessPuts(setup, JobOf(draft, minimumQuotes), draft, InitialState(draft),
                                        Some(Workflow.Validate), inputs, clock, 0);
                && store.tables == RunSql(old(store.tables), puts)
                && (r.Ok? ==> puts != [] && r.value == puts[|puts| - 1])
    {
      hide ProcessPuts, RecordFromState, FailedRecord, AfterPut, SqlPut, SqlGet, RunSql;
      var found := store.Get(dealId);
      if found.Err? { return Err(NotFound); }
      var draft := found.value;
      ghost var before := store.tables;
      var job := JobOf(draft, minimumQuotes);
      var ws, node, k, raised := InitialState(draft), Some(Workflow.Validate), 0, false;
      ghost var puts := ProcessPuts(setup, job, draft, ws, node, inputs, clock, 0);
      ghost var done: seq<Deal> := [];
      ghost var rest := puts;
      RunSqlNone(before);
      var record := RecordFromState(setup, draft, ws, clock(0));
      while record.Ok? && node.Some? && !raised
        invariant record == RecordFromState(setup, draft, ws, clock(k))
        invariant puts == done + rest
        invariant rest == if raised then [FailedRecord(draft, clock(k))]
            else ProcessPuts(setup, job, draft, ws, node, inputs, clock, k)
        invariant store.tables == RunSql(before, done)
        decreases !raised, NodesAhead(node)
      {
        ProcessGoesOn(setup, job, draft, ws, node.value, inputs, clock, k);
        RunSqlOnto(before, done, record.value);
        var error := store.Put(record.value);
        rest := rest[1..];
        Shifted(done, record.value, rest);
        done, k := done + [record.value], k + 1;
        var next := Workflow.RunGraphNode(node.value, job, ws, inputs(node.value));
        if next.None? {
          raised := true;
        } else {
          Workflow.RouteDescends(node.value, next.value);
          ws, node := next.value, Workflow.Route(node.value, next.value);
        }
        record := RecordFromState(setup, draft, ws, clock(k));
      }
      var last := FailedRecord(draft, clock(k));
      if !raised {
        ProcessEnds(setup, job, draft, ws, node, inputs, clock, k);
        if record.Ok? {
          RunSqlOnto(before, done, record.value);
          var error := store.Put(record.value);
          rest := rest[1..];
          Shifted(done, record.value, rest);
          done, k := done + [record.value], k + 1;
          last := record.value.(updatedAt := clock(k));
        }
      }
      assert rest == [last];
      RunSqlOnto(before, done, last);
      var error := store.Put(last);
      r := if error.Some? then Err(StoreRaised) else Ok(last);
    }

    method Approve(dealId: Id, approval: Approval, now: Time) returns (r: Result<ApprovalResult, DealError>)
      requires Valid()
      modifies store, trust, trust.anchor
      ensures (State(), r) == ApproveStep(setup, old(State()), dealId, approval, now)
    {
      var found := store.Get(dealId);
      if found.Err? { return Err(NotFound); }
      var deal := found.value;
      if AlreadyOrdered(deal.status) {
        if deal.selectedQuoteId == Some(approval.quoteId) && deal.orderId.Some? && deal.paymentDraftId.Some? {
          return Ok(ApprovalResult(dealId, deal.status, approval.quoteId, deal.orderId.value, deal.paymentDraftId.value,
                                   if deal.approvalSnapshot.Some?
                                   then deal.approvalSnapshot.value.snapshotHash
                                   else ""));
        }
        return Err(Conflict(OtherOrderExists));
      }
      if deal.status != AwaitingApproval { return Err(Conflict(NotAwaitingApproval)); }
      if approval.kind != DecisionKind.Approve { return Err(Conflict(UseDecisionEndpoint)); }
      if approval.approvedBy != deal.mandate.authorizedBy { return Err(Conflict(ApproverNotAuthorized)); }
      if !deal.mandate.Permits(FinalOfferAcceptance, now) { return Err(Conflict(AcceptanceNotPermitted)); }
      if deal.mandate.expiresAt <= now { return Err(Conflict(MandateHasExpired)); }
      if deal.comparison.None? { return Err(Conflict(NoComparison)); }
      var evaluated := FindEvaluated(deal.comparison.value.evaluatedQuotes, approval.quoteId);
      if evaluated.None? || !evaluated.value.eligible { return Err(Conflict(QuoteMissingOrIneligible)); }
      if evaluated.value.quote.validUntil <= now { return Err(Conflict(QuoteHasExpired)); }
      var built := BuildSnapshot(setup, deal, evaluated.value);
      if built.Err? { return Err(ControlRaised(built.error)); }
      if approval.snapshotHash != built.value.snapshotHash { return Err(Conflict(SnapshotHashMismatch)); }
      if deal.mandate.requiredApprovals == {} { return Err(NoRequiredApproval); }
      var decision := HumanDecision(DecisionKind.Approve, approval.approvedBy, built.value.snapshotHash);
      var call := Call(deal, evaluated.value.quote, built.value, decision, dealId);
      assert StartApproval(setup, dealId, deal, approval, now) == Calls(call);
      r := Purchase(dealId, approval, call, now);
    }

    /** The second half of `approve`: the trust service and the put. */
    method Purchase(dealId: Id, approval: Approval, call: Call, now: Time)
        returns (r: Result<ApprovalResult, DealError>)
      requires Valid()
      modifies store, trust, trust.anchor
      ensures (State(), r) == PurchaseStep(setup, old(State()), dealId, approval, call, now)
    {
      var outcome := trust.ProcessApprovedPurchase(call, now);
      if outcome.Err? { return Err(ErrorOf(outcome.error)); }
      var a := outcome.value;
      var error := store.Put(ApprovedRecord(approval, call, a, now));
      if error.Some? { return Err(StoreRaised); }
      r := Ok(ApprovalAnswer(dealId, approval, call, a));
    }

    method Decide(dealId: Id, approval: Approval, now: Time) returns (r: Result<Deal, DealError>)
      requires Valid()
      modifies store, trust, trust.anchor
      ensures (State(), r) == DecideStep(setup, old(State()), dealId, approval, now)
    {
      if approval.kind == DecisionKind.Approve {
        var approved := Approve(dealId, approval, now);
        if approved.Err? { return Err(approved.error); }
        var current := store.Get(dealId);
        return if current.Ok? then Ok(current.value) else Err(NotFound);
      }
      var found := store.Get(dealId);
      if found.Err? { return Err(NotFound); }
      var deal := found.value;
      if deal.status != AwaitingApproval { return Err(Conflict(NotAwaitingApproval)); }
      if approval.approvedBy != deal.mandate.authorizedBy { return Err(Conflict(ApproverNotAuthorized)); }
      if deal.approvalSnapshot.None? { return Err(Conflict(SnapshotMissing)); }
      if approval.snapshotHash != deal.approvalSnapshot.value.snapshotHash {
        return Err(Conflict(SnapshotHashMismatch));
      }
      if deal.mandate.requiredApprovals == {} { return Err(NoRequiredApproval); }
      var updated := deal.(
        status := if approval.kind == Reject then Rejected else ChangesRequested,
        humanDecision := Some(HumanDecision(approval.kind, approval.approvedBy, approval.snapshotHash)),
        updatedAt := now, events := deal.events + [HumanDecided(approval.kind, approval.snapshotHash)]);
      var error := store.Put(updated);
      if error.Some? { return Err(StoreRaised); }
      r := Ok(updated);
    }

    method SignPayment(dealId: Id, request: SignatureRequest, documentId: Id, now: Time)
        returns (r: Result<SignatureResult, DealError>)
      modifies store, outbox
      ensures (State(), r) == SignStep(old(State()), dealId, request, documentId, now)
    {
      var found := store.Get(dealId);
      if found.Err? { return Err(NotFound); }
      var deal := found.value;
      if deal.status == Completed && deal.paymentDraft.Some? {
        return Ok(SignatureResult(dealId, deal.paymentDraft.value.paymentDraftId, deal.status,
            deal.paymentDraft.value.status));
      }
      if deal.status != PaymentSignatureRequired { return Err(Conflict(NotAwaitingSignature)); }
      if !deal.mandate.Permits(EdoAction, now) { return Err(Conflict(FulfillmentNotPermitted)); }
      if !request.confirmation { return Err(Conflict(ConfirmationRequired)); }
      if request.signedBy != deal.mandate.authorizedBy { return Err(Conflict(SignerNotAuthorized)); }
      if deal.paymentDraft.None? || deal.paymentDraftId != Some(request.paymentDraftId) {
        return Err(Conflict(DraftIdMismatch));
      }
      var quote := if deal.selectedQuoteId.Some? then FindQuote(deal.quotes, deal.selectedQuoteId.value) else None;
      if quote.None? || deal.orderId.None? || deal.approvalSnapshot.None? { return Err(Conflict(StateIncomplete)); }
      assert StartSignature(dealId, deal, request, now) == Signs(quote.value);
      var updated := SignedRecord(deal, request, quote.value, documentId, now);
      var error := store.Put(updated);
      if error.Some? { return Err(StoreRaised); }
      outbox.AppendOutbox(MessagesOf(updated, quote.value));
      outbox.MarkOutboxPublished(deal.dealId);
      r := Ok(SignatureAnswer(dealId, request));
    }
  }
}
