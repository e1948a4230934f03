/** What every reachable state of the process satisfies, deal by deal. */
module PurchaseInvariant {
  import opened Wrappers
  import opened Domain
  import opened TrustService
  import opened DealService
  import opened PurchaseMachine
  import Workflow

  /** Everything about one deal: its stored record, its task, its entries in the two idempotency maps,
      and the human step under way, if it is for this deal. */
  datatype Cell = Cell(
    deal: Deal, task: Task, payment: Option<PaymentDraft>, cached: Option<Artifacts>, winner: Option<Id>,
    op: Option<Op>, early: bool, lost: bool, unserved: bool)

  function Lookup<V>(m: map<Id, V>, id: Id): Option<V> {
    if id in m then Some(m[id]) else None
  }

  function OpOn(op: Option<Op>, id: Id): Option<Op> {
    if op.Some? && op.value.Subject() == id then op else None
  }

  function CellOf(sys: System, id: Id): Cell
    requires id in sys.deals && id in sys.tasks
  {
    Cell(sys.deals[id], sys.tasks[id], Lookup(sys.trust.payments, id), Lookup(sys.trust.purchases, id),
         Lookup(sys.winners, id), OpOn(sys.op, id), id in sys.early, id in sys.lost,
         id in sys.unsent || id in sys.unpublished)
  }

  /******* Records *******/

  predicate NoPurchase(deal: Deal) {
    && deal.selectedQuoteId.None? && deal.orderId.None? && deal.paymentDraftId.None? && deal.order.None?
    && deal.paymentDraft.None? && deal.purchaseIntent.None? && deal.ledgerAnchor.None? && deal.oracle.None?
    && deal.fulfillment == [] && deal.documents == []
  }

  predicate FreshDraft(deal: Deal) {
    && deal.status == Draft && NoPurchase(deal) && deal.humanDecision.None? && deal.approvalSnapshot.None?
    && deal.comparison.None? && deal.supplierIds == [] && deal.quotes == [] && deal.errors == []
  }

  /** What all approvals of a deal agree on once its workflow has delivered. */
  datatype Terms = Terms(dealId: Id, mandate: Mandate, comparison: Comparison)

  predicate Delivered(task: Task) {
    task.Running? && task.ws.status == AwaitingApproval && task.ws.comparison.Some?
  }

  function TermsOf(task: Task): Terms
    requires Delivered(task)
  {
    Terms(task.draft.dealId, task.draft.mandate, task.ws.comparison.value)
  }

  /** The record is about the workflow's result. */
  predicate HasContent(task: Task, deal: Deal) {
    && Delivered(task)
    && deal.dealId == task.draft.dealId && deal.intent == task.draft.intent && deal.mandate == task.draft.mandate
    && deal.comparison == task.ws.comparison && deal.quotes == task.ws.quotes && deal.supplierIds == task.ws.supplierIds
  }

  function ItemIn(t: Terms, quoteId: Id): Option<EvaluatedQuote> {
    FindEvaluated(t.comparison.evaluatedQuotes, quoteId)
  }

  predicate Buyable(s: Setup, t: Terms, quoteId: Id) {
    ItemIn(t, quoteId).Some? && ItemIn(t, quoteId).value.eligible
    && FindSupplier(s.controls.suppliers, ItemIn(t, quoteId).value.quote.supplierId).Ok?
  }

  function QuoteFor(s: Setup, t: Terms, quoteId: Id): Quote
    requires Buyable(s, t, quoteId)
  {
    ItemIn(t, quoteId).value.quote
  }

  function BindingFor(s: Setup, t: Terms, quoteId: Id): Digest
    requires Buyable(s, t, quoteId)
  {
    FindSupplier(s.controls.suppliers, ItemIn(t, quoteId).value.quote.supplierId).value.bankBindingHash
  }

  function PayloadFor(s: Setup, t: Terms, quoteId: Id): SnapshotPayload
    requires Buyable(s, t, quoteId)
  {
    PayloadOf(t.dealId, t.mandate.version, t.comparison.rankingVersion, ItemIn(t, quoteId).value,
        BindingFor(s, t, quoteId))
  }

  function SnapshotFor(s: Setup, t: Terms, quoteId: Id): ApprovalSnapshot
    requires Buyable(s, t, quoteId)
  {
    SnapshotOf(s, t.dealId, t.mandate.version, t.comparison.rankingVersion, ItemIn(t, quoteId).value,
        BindingFor(s, t, quoteId))
  }

  /** The artifacts were made for this quote, within the mandate. */
  predicate Made(s: Setup, rows: seq<Anchor>, t: Terms, quoteId: Id, a: Artifacts) {
    && Buyable(s, t, quoteId)
    && var q, binding := QuoteFor(s, t, quoteId), BindingFor(s, t, quoteId);
    && q.TotalCost() <= t.mandate.maxTotal && q.currency == t.mandate.currency
    && a.purchaseIntent == PurchaseIntent(
         a.purchaseIntent.intentId, t.dealId, SnapshotFor(s, t, quoteId).snapshotHash, t.mandate.agentId,
         q.supplierId, q.TotalCost(), q.currency, binding)
    && a.paymentDraft == PaymentDraft(
         a.paymentDraft.paymentDraftId, a.paymentDraft.orderId, q.TotalCost(), q.currency, q.supplierId,
         AwaitingCustomerSignature, binding)
    && a.anchor in rows && a.anchor.dealId == t.dealId
    && a.anchor.payloadHash == s.controls.intentHash(a.purchaseIntent)
    && a.oracle.verified && a.oracle.checks.All() && a.oracle.purchaseIntentId == a.purchaseIntent.intentId
    && a.policy.allow && a.policy.operation == CreatePurchaseIntent && a.fraud.allow
  }

  predicate DistinctDocuments(documents: seq<Document>) {
    forall i, j :: 0 <= i < j < |documents| ==> documents[i].documentId != documents[j].documentId
  }

  /** The record names the quote and carries the artifacts, signed or not. */
  predicate Purchased(s: Setup, t: Terms, quoteId: Id, a: Artifacts, deal: Deal) {
    && Buyable(s, t, quoteId)
    && deal.selectedQuoteId == Some(quoteId)
    && deal.approvalSnapshot == Some(SnapshotFor(s, t, quoteId))
    && deal.humanDecision ==
        Some(HumanDecision(Approve, t.mandate.authorizedBy, SnapshotFor(s, t, quoteId).snapshotHash))
    && deal.orderId == Some(a.paymentDraft.orderId) && deal.paymentDraftId == Some(a.paymentDraft.paymentDraftId)
    && deal.order == Some(Order(a.paymentDraft.orderId, QuoteFor(s, t, quoteId).supplierId, quoteId))
    && deal.purchaseIntent == Some(a.purchaseIntent) && deal.ledgerAnchor == Some(a.anchor)
    && deal.oracle == Some(a.oracle) && a.policy in deal.policyDecisions && a.fraud in deal.fraudDecisions
    && (deal.status == PaymentSignatureRequired ==>
          deal.paymentDraft == Some(a.paymentDraft) && deal.fulfillment == [] && deal.documents == [])
    && (deal.status == Completed ==>
          && deal.paymentDraft == Some(a.paymentDraft.(status := Signed))
          && deal.fulfillment == TIMELINE
          && |deal.documents| == 3 && DistinctDocuments(deal.documents))
  }

  predicate Ordered(status: DealStatus) {
    status == PaymentSignatureRequired || status == Completed
  }

  predicate TurnedDown(deal: Deal) {
    && (deal.status == Rejected || deal.status == ChangesRequested)
    && deal.humanDecision.Some? && deal.approvalSnapshot.Some?
    && deal.humanDecision.value.kind == (if deal.status == Rejected then Reject else RequestChanges)
    && deal.humanDecision.value.approver == deal.mandate.authorizedBy
    && deal.humanDecision.value.snapshotHash == deal.approvalSnapshot.value.snapshotHash
  }

  predicate RecordHolds(s: Setup, task: Task, deal: Deal, cached: Option<Artifacts>) {
    match deal.status
    case Draft => NoPurchase(deal)
    case Failed => NoPurchase(deal)
    case AwaitingApproval =>
      && HasContent(task, deal) && NoPurchase(deal)
      && PreviewSnapshot(s, task.draft, task.ws.comparison) == Ok(deal.approvalSnapshot)
    case Rejected => HasContent(task, deal) && NoPurchase(deal) && TurnedDown(deal)
    case ChangesRequested => HasContent(task, deal) && NoPurchase(deal) && TurnedDown(deal)
    case PaymentSignatureRequired => RecordsPurchase(s, task, deal, cached)
    case Completed => RecordsPurchase(s, task, deal, cached)
    case OrderCreated => false
    case Fulfilling => false
  }

  predicate RecordsPurchase(s: Setup, task: Task, deal: Deal, cached: Option<Artifacts>) {
    && HasContent(task, deal) && cached.Some? && deal.selectedQuoteId.Some? && Ordered(deal.status)
    && Purchased(s, TermsOf(task), deal.selectedQuoteId.value, cached.value, deal)
  }

  /******* Tasks *******/

  ghost predicate TaskHolds(c: Config, id: Id, task: Task, deal: Deal) {
    match task
    case Scheduled => FreshDraft(deal)
    case Running(draft, ws, phase) =>
      && FreshDraft(draft) && draft.dealId == id && draft.intent == deal.intent && draft.mandate == deal.mandate
      && StateHolds(JobOf(draft, c.minimumQuotes), ws, phase)
  }

  ghost predicate StateHolds(job: Workflow.Job, ws: Workflow.WorkflowState, phase: Phase) {
    && (ws.status == Draft || ws.status == AwaitingApproval || ws.status == Failed)
    && (ws.status == AwaitingApproval ==> Workflow.Ready(job, ws))
    && match phase
       case AtNode(node) => ws.status == Draft && Workflow.At(node, job, ws)
       case AtPut(Some(node)) => ws.status == Draft && Workflow.At(node, job, ws)
       case AtPut(None) => ws.status != Draft
       case AtLastPut => ws.status != Draft
       case AtFailedPut => true
       case Over => true
  }

  /******* The maps and the step under way *******/

  predicate IsDrafting(op: Option<Op>) {
    op.Some? && op.value.Purchasing? && op.value.flight.Drafted?
  }

  /** A draft was issued only after a call that the mandate permitted as a whole. */
  ghost predicate CacheHolds(s: Setup, rows: seq<Anchor>, cell: Cell) {
    && (cell.payment.Some? ==>
          && Delivered(cell.task) && cell.winner.Some? && (cell.cached.Some? || IsDrafting(cell.op))
          && Authorized(cell.task.draft.intent, cell.task.draft.mandate))
    && (cell.cached.Some? ==>
          && cell.payment == Some(cell.cached.value.paymentDraft)
          && Delivered(cell.task) && cell.winner.Some?
          && Made(s, rows, TermsOf(cell.task), cell.winner.value, cell.cached.value))
  }

  predicate GoodCall(s: Setup, task: Task, approval: Approval, call: Call) {
    && HasContent(task, call.deal) && NoPurchase(call.deal) && call.deal.status == AwaitingApproval
    && call.key == call.deal.dealId
    && var t := TermsOf(task);
    && Buyable(s, t, approval.quoteId)
    && call.quote == QuoteFor(s, t, approval.quoteId)
    && call.snapshot == SnapshotFor(s, t, approval.quoteId)
    && call.decision == HumanDecision(Approve, t.mandate.authorizedBy, call.snapshot.snapshotHash)
  }

  predicate PurchaseUnderWay(s: Setup, rows: seq<Anchor>, cell: Cell, approval: Approval, f: Flight) {
    && GoodCall(s, cell.task, approval, f.call)
    && match f
       case Entered(_) => true
       case Prepared(_, _, _, _) => cell.payment.None?
       case Anchored(_, _, _, _, _) => cell.payment.None?
       case Cleared(_, _, _, _, _, _, _) => cell.payment.None?
       case Drafted(_, a) =>
         && cell.cached.None? && cell.payment == Some(a.paymentDraft) && cell.winner == Some(approval.quoteId)
         && Made(s, rows, TermsOf(cell.task), approval.quoteId, a)
       case Returned(_, a) => cell.cached == Some(a)
       case Raised(_, _) => false
  }

  predicate SignatureUnderWay(s: Setup, cell: Cell, deal: Deal, quote: Quote) {
    && RecordsPurchase(s, cell.task, deal, cell.cached) && deal.status == Completed
    && FindQuote(deal.quotes, deal.selectedQuoteId.value) == Some(quote)
  }

  predicate OpHolds(s: Setup, rows: seq<Anchor>, cell: Cell) {
    match cell.op
    case None => true
    case Some(Purchasing(approval, f)) => PurchaseUnderWay(s, rows, cell, approval, f)
    case Some(Deciding(updated)) => HasContent(cell.task, updated) && NoPurchase(updated) && TurnedDown(updated)
    case Some(Signing(updated, quote)) => SignatureUnderWay(s, cell, updated, quote)
    case Some(Messaging(deal, quote)) => SignatureUnderWay(s, cell, deal, quote)
    case Some(Publishing(_)) => true
  }

  /******* Deals that nobody took up early, and those whose record lost no approval *******/

  predicate HoldsDraft(op: Option<Op>) {
    op.Some? && op.value.Purchasing? && (op.value.flight.Drafted? || op.value.flight.Returned?)
  }

  predicate IsOver(task: Task) {
    task.Running? && task.phase.Over?
  }

  /** Only the step under way writes, and messages are missing only after a completion. */
  predicate Calm(cell: Cell) {
    && (cell.op.Some? ==> IsOver(cell.task))
    && (!IsOver(cell.task) ==>
          cell.deal.status == Draft || cell.deal.status == AwaitingApproval || cell.deal.status == Failed)
    && (cell.unserved ==> cell.deal.status == Completed && cell.op.None?)
    && match cell.op
       case None => true
       case Some(Purchasing(_, _)) => cell.deal.status == AwaitingApproval
       case Some(Deciding(_)) => cell.deal.status == AwaitingApproval
       case Some(Signing(_, _)) => cell.deal.status == PaymentSignatureRequired
       case Some(Messaging(deal, _)) => cell.deal.status == Completed && deal == cell.deal.(events := deal.events)
       case Some(Publishing(_)) => cell.deal.status == Completed
  }

  /** A draft was issued exactly for the purchase on record, or on its way there. */
  predicate Intact(cell: Cell) {
    && (cell.payment.Some? <==> Ordered(cell.deal.status) || HoldsDraft(cell.op))
    && (Ordered(cell.deal.status) ==> cell.deal.selectedQuoteId == cell.winner)
    && match cell.op
       case Some(Purchasing(approval, f)) => f.Returned? ==> cell.winner == Some(approval.quoteId)
       case Some(Signing(updated, _)) => updated.selectedQuoteId == cell.winner
       case _ => true
  }

  ghost predicate CellHolds(c: Config, rows: seq<Anchor>, id: Id, cell: Cell) {
    && cell.deal.dealId == id
    && TaskHolds(c, id, cell.task, cell.deal)
    && RecordHolds(c.setup, cell.task, cell.deal, cell.cached)
    && CacheHolds(c.setup, rows, cell)
    && OpHolds(c.setup, rows, cell)
    && (!cell.early ==> Calm(cell))
    && (!cell.early && !cell.lost ==> Intact(cell))
  }

  /** The parts of a cell that do not depend on its history. */
  lemma PartsHold(c: Config, rows: seq<Anchor>, id: Id, cell: Cell)
    requires CellHolds(c, rows, id, cell)
    ensures TaskHolds(c, id, cell.task, cell.deal) && RecordHolds(c.setup, cell.task, cell.deal, cell.cached)
    ensures CacheHolds(c.setup, rows, cell)
  {
    hide TaskHolds, RecordHolds, CacheHolds, OpHolds, Calm, Intact;
  }

  /** An ordered record, and the artifacts it carries. */
  lemma OrderedParts(s: Setup, rows: seq<Anchor>, cell: Cell)
    requires RecordHolds(s, cell.task, cell.deal, cell.cached) && CacheHolds(s, rows, cell)
    ensures Ordered(cell.deal.status) ==>
              && RecordsPurchase(s, cell.task, cell.deal, cell.cached)
              && cell.winner.Some? && cell.payment == Some(cell.cached.value.paymentDraft)
              && Made(s, rows, TermsOf(cell.task), cell.winner.value, cell.cached.value)
    ensures !Ordered(cell.deal.status) ==> NoPurchase(cell.deal)
    ensures cell.deal.status != OrderCreated && cell.deal.status != Fulfilling
  {
    hide Made, Purchased, PreviewSnapshot;
  }

  lemma CellHoldsAfterAppend(c: Config, rows: seq<Anchor>, more: seq<Anchor>, id: Id, cell: Cell)
    requires CellHolds(c, rows, id, cell) && rows <= more
    ensures CellHolds(c, more, id, cell)
  {
    forall a: Anchor | a in rows ensures a in more {
      var i :| 0 <= i < |rows| && rows[i] == a;
      assert more[i] == a;
    }
  }

  /******* One cell, one step *******/

  lemma NewCell(c: Config, rows: seq<Anchor>, id: Id, intent: Intent, mandate: Mandate, now: Time, winner: Option<Id>,
      early: bool, lost: bool)
    ensures CellHolds(c, rows, id,
        Cell(NewDraft(id, intent, mandate, now), Scheduled, None, None, winner, None, early, lost, false))
  {
  }

  lemma StartedCell(c: Config, rows: seq<Anchor>, id: Id, cell: Cell)
    requires CellHolds(c, rows, id, cell) && cell.task.Scheduled?
    ensures CellHolds(c, rows, id,
        cell.(task := Running(cell.deal, InitialState(cell.deal), AtPut(Some(Workflow.Validate)))))
  {
  }

  /** Moving on to a phase that asks nothing of the workflow state. */
  lemma EndedCell(c: Config, rows: seq<Anchor>, id: Id, cell: Cell, phase: Phase)
    requires CellHolds(c, rows, id, cell) && cell.task.Running? && !cell.task.phase.Over?
    requires phase == AtFailedPut || phase == Over
    ensures CellHolds(c, rows, id, cell.(task := cell.task.(phase := phase)))
  {
    hide Made, Purchased;
    var after := cell.(task := cell.task.(phase := phase));
    assert Delivered(after.task) == Delivered(cell.task);
    assert Delivered(cell.task) ==> TermsOf(after.task) == TermsOf(cell.task);
  }

  lemma NodeKeepsStatus(node: Workflow.Node, job: Workflow.Job, ws: Workflow.WorkflowState, inputs: Workflow.Inputs)
    requires Workflow.At(node, job, ws) && ws.status == Draft && Workflow.RunNode(node, job, ws, inputs).Some?
    ensures var next := Workflow.RunNode(node, job, ws, inputs).value;
            if Workflow.Route(node, next).Some? then next.status == Draft
            else (next.status == Failed || next.status == AwaitingApproval)
                 && (next.status == AwaitingApproval ==> Workflow.Ready(job, next))
  {
    if node.Finalize? { Workflow.FinalizeDecides(job, ws); }
  }

  lemma NodeCell(c: Config, rows: seq<Anchor>, id: Id, cell: Cell, inputs: Workflow.Inputs)
    requires CellHolds(c, rows, id, cell) && cell.task.Running? && cell.task.phase.AtNode? && c.minimumQuotes >= 1
    ensures CellHolds(c, rows, id, cell.(task := NodeDone(c, cell.task, inputs)))
  {
    hide Made, Purchased;
    var job, node := JobOf(cell.task.draft, c.minimumQuotes), cell.task.phase.node;
    if Workflow.RunNode(node, job, cell.task.ws, inputs).Some? {
      Workflow.StepKeeps(node, job, cell.task.ws, inputs);
      NodeKeepsStatus(node, job, cell.task.ws, inputs);
    } else {
      EndedCell(c, rows, id, cell, AtFailedPut);
    }
  }

  /** Neither the maps nor the step under way ask for the phase of the task or for the stored record. */
  lemma PhaseKeepsMaps(s: Setup, rows: seq<Anchor>, cell: Cell, phase: Phase, deal: Deal)
    requires CacheHolds(s, rows, cell) && OpHolds(s, rows, cell) && cell.task.Running?
    ensures var after := cell.(deal := deal, task := cell.task.(phase := phase));
            CacheHolds(s, rows, after) && OpHolds(s, rows, after)
  {
    hide Made, Purchased;
    var task := cell.task.(phase := phase);
    assert Delivered(task) == Delivered(cell.task);
    assert Delivered(task) ==> TermsOf(task) == TermsOf(cell.task);
  }

  lemma RecordOf(s: Setup, draft: Deal, ws: Workflow.WorkflowState, now: Time)
    requires RecordFromState(s, draft, ws, now).Ok? && FreshDraft(draft)
    ensures var r := RecordFromState(s, draft, ws, now).value;
            && r.dealId == draft.dealId && r.intent == draft.intent && r.mandate == draft.mandate
            && r.status == ws.status && NoPurchase(r)
            && r.comparison == ws.comparison && r.quotes == ws.quotes && r.supplierIds == ws.supplierIds
            && PreviewSnapshot(s, draft, ws.comparison) == Ok(r.approvalSnapshot)
  {
    hide PreviewSnapshot;
  }

  /** The phase after a put asks no more of the workflow state than the one before. */
  lemma PutState(job: Workflow.Job, ws: Workflow.WorkflowState, phase: Phase)
    requires StateHolds(job, ws, phase) && HasRecordToPut(phase)
    ensures StateHolds(job, ws, AfterPutPhase(phase)) && (ws.status == Draft ==> AfterPutPhase(phase) != Over)
  {
    hide Workflow.At, Workflow.Ready;
  }

  /** A task rewrites the record of a calm and intact cell with one that has no purchase. */
  lemma TaskWrites(cell: Cell, task: Task, deal: Deal)
    requires cell.task.Running? && !IsOver(cell.task)
    requires deal.status == Draft || deal.status == AwaitingApproval || deal.status == Failed
    ensures Calm(cell) ==> Calm(cell.(task := task, deal := deal))
    ensures Calm(cell) && Intact(cell) ==> Intact(cell.(task := task, deal := deal))
  {
  }

  lemma PutCell(c: Config, rows: seq<Anchor>, id: Id, cell: Cell, now: Time, kept: seq<Event>)
    requires CellHolds(c, rows, id, cell) && cell.task.Running? && HasRecordToPut(cell.task.phase)
    requires RecordFromState(c.setup, cell.task.draft, cell.task.ws, now).Ok?
    ensures CellHolds(c, rows, id, cell.(
      deal := RecordFromState(c.setup, cell.task.draft, cell.task.ws, now).value.(events := kept),
      task := cell.task.(phase := AfterPutPhase(cell.task.phase))))
  {
    hide RecordFromState, PreviewSnapshot, CacheHolds, OpHolds, StateHolds, Calm, Intact, FreshDraft, NoPurchase;
    var deal := RecordFromState(c.setup, cell.task.draft, cell.task.ws, now).value.(events := kept);
    var task := cell.task.(phase := AfterPutPhase(cell.task.phase));
    RecordOf(c.setup, cell.task.draft, cell.task.ws, now);
    PutState(JobOf(cell.task.draft, c.minimumQuotes), cell.task.ws, cell.task.phase);
    PutStatuses(JobOf(cell.task.draft, c.minimumQuotes), cell.task.ws, cell.task.phase);
    EventsAside(deal, RecordFromState(c.setup, cell.task.draft, cell.task.ws, now).value);
    PhaseKeepsMaps(c.setup, rows, cell, task.phase, deal);
    TaskWrites(cell, task, deal);
  }

  lemma PutStatuses(job: Workflow.Job, ws: Workflow.WorkflowState, phase: Phase)
    requires StateHolds(job, ws, phase)
    ensures ws.status == Draft || ws.status == Failed || (ws.status == AwaitingApproval && ws.comparison.Some?)
  {
    hide Workflow.At;
  }

  lemma EventsAside(deal: Deal, r: Deal)
    requires deal == r.(events := deal.events) && NoPurchase(r)
    ensures NoPurchase(deal)
  {
  }

  lemma FailedPutCell(c: Config, rows: seq<Anchor>, id: Id, cell: Cell, now: Time, kept: seq<Event>)
    requires CellHolds(c, rows, id, cell) && cell.task.Running? && cell.task.phase.AtFailedPut?
    ensures CellHolds(c, rows, id, cell.(
      deal := FailedRecord(cell.task.draft, now).(events := kept), task := cell.task.(phase := Over)))
  {
    hide CacheHolds, OpHolds, Calm, Intact, Workflow.Ready;
    var deal := FailedRecord(cell.task.draft, now).(events := kept);
    PhaseKeepsMaps(c.setup, rows, cell, Over, deal);
    TaskWrites(cell, cell.task.(phase := Over), deal);
  }

  lemma BegunCall(c: Config, rows: seq<Anchor>, id: Id, cell: Cell, approval: Approval, now: Time)
    requires CellHolds(c, rows, id, cell) && StartApproval(c.setup, id, cell.deal, approval, now).Calls?
    ensures GoodCall(c.setup, cell.task, approval, StartApproval(c.setup, id, cell.deal, approval, now).call)
  {
  }

  lemma ApproveCell(c: Config, rows: seq<Anchor>, id: Id, cell: Cell, approval: Approval, now: Time)
    requires CellHolds(c, rows, id, cell) && cell.op.None?
    requires StartApproval(c.setup, id, cell.deal, approval, now).Calls?
    ensures var call := StartApproval(c.setup, id, cell.deal, approval, now).call;
            CellHolds(c, rows, id,
                cell.(op := Some(Purchasing(approval, Entered(call))), early := cell.early || !IsOver(cell.task)))
  {
    hide TaskHolds, Made;
    BegunCall(c, rows, id, cell, approval, now);
  }

  lemma DecideCell(c: Config, rows: seq<Anchor>, id: Id, cell: Cell, approval: Approval, now: Time)
    requires CellHolds(c, rows, id, cell) && cell.op.None? && approval.kind != Approve
    requires DecidedRecord(cell.deal, approval, now).Ok?
    ensures CellHolds(c, rows, id, cell.(
      op := Some(Deciding(DecidedRecord(cell.deal, approval, now).value)), early := cell.early || !IsOver(cell.task)))
  {
    hide TaskHolds, Made;
  }

  lemma SignCell(c: Config, rows: seq<Anchor>, id: Id, cell: Cell, request: SignatureRequest, documentId: Id, now: Time)
    requires CellHolds(c, rows, id, cell) && cell.op.None? && StartSignature(id, cell.deal, request, now).Signs?
    ensures var quote := StartSignature(id, cell.deal, request, now).quote;
            CellHolds(c, rows, id, cell.(
              op := Some(Signing(SignedRecord(cell.deal, request, quote, documentId, now), quote)),
              early := cell.early || !IsOver(cell.task)))
  {
    hide TaskHolds, LifecycleEvents, Made;
    var quote := StartSignature(id, cell.deal, request, now).quote;
    var updated := SignedRecord(cell.deal, request, quote, documentId, now);
    assert RecordsPurchase(c.setup, cell.task, updated, cell.cached);
  }

  /** A put of a human step, and what it leaves under way. */
  lemma ApprovedCell(c: Config, rows: seq<Anchor>, id: Id, cell: Cell, now: Time, kept: seq<Event>)
    requires CellHolds(c, rows, id, cell) && cell.op.Some? && cell.op.value.Purchasing?
    requires cell.op.value.flight.Returned?
    ensures var op := cell.op.value;
            var deal := ApprovedRecord(op.approval, op.flight.call, op.flight.result, now).(events := kept);
            CellHolds(c, rows, id, cell.(deal := deal, op := None))
  {
    hide StateHolds, Made, ApprovalEvents, FreshDraft, TurnedDown, PreviewSnapshot;
    var op := cell.op.value;
    var deal := ApprovedRecord(op.approval, op.flight.call, op.flight.result, now).(events := kept);
    assert Purchased(c.setup, TermsOf(cell.task), op.approval.quoteId, op.flight.result, deal);
  }

  lemma DecidedCell(c: Config, rows: seq<Anchor>, id: Id, cell: Cell, kept: seq<Event>)
    requires CellHolds(c, rows, id, cell) && cell.op.Some? && cell.op.value.Deciding?
    ensures CellHolds(c, rows, id, cell.(deal := cell.op.value.updated.(events := kept), op := None))
  {
    hide StateHolds, Made;
  }

  lemma SignedCell(c: Config, rows: seq<Anchor>, id: Id, cell: Cell, kept: seq<Event>)
    requires CellHolds(c, rows, id, cell) && cell.op.Some? && cell.op.value.Signing?
    ensures var op := cell.op.value;
            CellHolds(c, rows, id,
                cell.(deal := op.updated.(events := kept), op := Some(Messaging(op.updated, op.quote))))
  {
    hide StateHolds, Made;
    var op := cell.op.value;
    assert Purchased(c.setup, TermsOf(cell.task), op.updated.selectedQuoteId.value, cell.cached.value,
        op.updated.(events := kept));
  }

  /** The step under way ends, or goes on to its messages, without a put. */
  lemma ReleasedCell(c: Config, rows: seq<Anchor>, id: Id, cell: Cell, op: Option<Op>, lost: bool, unserved: bool)
    requires CellHolds(c, rows, id, cell) && cell.op.Some? && !IsDrafting(cell.op)
    requires op == None || (op == Some(Publishing(id)) && cell.op.value.Messaging?)
    requires (HoldsDraft(cell.op) ==> lost) && (cell.lost ==> lost)
    requires unserved ==> cell.unserved || (op.None? && (cell.op.value.Messaging? || cell.op.value.Publishing?))
    ensures CellHolds(c, rows, id, cell.(op := op, lost := lost, unserved := unserved))
  {
    hide TaskHolds, RecordHolds, Made;
  }

  /******* A stage of the trust call *******/

  /** The cell after a stage: the new state of the maps for its deal, and the flight if it goes on. */
  function StagedCell(cell: Cell, before: Flight, after: Flight, payment: Option<PaymentDraft>,
      cached: Option<Artifacts>): Cell
    requires cell.op.Some? && cell.op.value.Purchasing?
  {
    var approval := cell.op.value.approval;
    cell.(op := if after.Raised? then None else Some(Purchasing(approval, after)), payment := payment, cached := cached,
          winner := if before.Cleared? && cell.payment.None? then Some(approval.quoteId) else cell.winner)
  }

  ghost predicate InCell(ts: TrustState, f: Flight, cell: Cell) {
    && cell.op.Some? && cell.op.value.Purchasing? && cell.op.value.flight == f
    && cell.payment == Lookup(ts.payments, f.call.key) && cell.cached == Lookup(ts.purchases, f.call.key)
  }

  lemma IssuedIsMade(c: Config, rows: seq<Anchor>, task: Task, approval: Approval, call: Call, a: Artifacts)
    requires GoodCall(c.setup, task, approval, call) && Issued(c.setup.controls, rows, call, a)
    ensures Made(c.setup, rows, TermsOf(task), approval.quoteId, a)
  {
  }

  /** A flight that moves without touching the maps. */
  lemma FlightMoved(c: Config, rows: seq<Anchor>, id: Id, cell: Cell, g: Flight)
    requires CellHolds(c, rows, id, cell) && cell.op.Some? && cell.op.value.Purchasing?
    requires !HoldsDraft(cell.op) && !g.Drafted? && (g.Returned? ==> cell.cached.Some?)
    requires PurchaseUnderWay(c.setup, rows, cell, cell.op.value.approval, g) && g.call.key == id
    ensures CellHolds(c, rows, id, cell.(op := Some(Purchasing(cell.op.value.approval, g))))
  {
  }

  lemma EnteredStage(c: Config, ts: TrustState, f: Flight, id: Id, cell: Cell, now: Time)
    requires InCell(ts, f, cell) && CellHolds(c, ts.rows, id, cell) && f.call.key == id && f.Entered?
    ensures var g := Enter(c.setup.controls, ts, f.call, now).1;
            if g.Raised? then CellHolds(c, ts.rows, id, cell.(op := None))
            else CellHolds(c, ts.rows, id, cell.(op := Some(Purchasing(cell.op.value.approval, g))))
  {
    hide TaskHolds, RecordHolds, Made, Policies;
    var g := Enter(c.setup.controls, ts, f.call, now).1;
    if g.Raised? {
      ReleasedCell(c, ts.rows, id, cell, None, cell.lost, cell.unserved);
    } else {
      FlightMoved(c, ts.rows, id, cell, g);
    }
  }

  lemma MiddleStage(c: Config, rows: seq<Anchor>, id: Id, cell: Cell, f: Flight, g: Flight)
    requires CellHolds(c, rows, id, cell) && f.call.key == id
    requires cell.op.Some? && cell.op.value.Purchasing? && cell.op.value.flight == f && (f.Prepared? || f.Anchored?)
    requires g.call == f.call && (g.Anchored? || g.Cleared? || g.Raised?)
    ensures if g.Raised? then CellHolds(c, rows, id, cell.(op := None))
            else CellHolds(c, rows, id, cell.(op := Some(Purchasing(cell.op.value.approval, g))))
  {
    hide TaskHolds, RecordHolds, Made;
    if g.Raised? {
      ReleasedCell(c, rows, id, cell, None, cell.lost, cell.unserved);
    } else {
      FlightMoved(c, rows, id, cell, g);
    }
  }

  lemma ClearedStage(c: Config, ts: TrustState, f: Flight, id: Id, cell: Cell)
    requires InCell(ts, f, cell) && CellHolds(c, ts.rows, id, cell) && f.call.key == id && f.Cleared?
    requires FlightSound(c.setup.controls, ts, f)
    ensures f.call.key !in ts.payments
    ensures var g := TakeDraft(ts, f).1;
            CellHolds(c, ts.rows, id, cell.(
              op := Some(Purchasing(cell.op.value.approval, g)), payment := Some(g.result.paymentDraft),
              winner := Some(cell.op.value.approval.quoteId)))
  {
    hide TaskHolds, RecordHolds, Issued;
    assert cell.payment.None?;
    var g := TakeDraft(ts, f).1;
    FirstDraftIsIssued(c.setup.controls, ts, f);
    IssuedIsMade(c, ts.rows, cell.task, cell.op.value.approval, f.call, g.result);
  }

  lemma DraftedStage(c: Config, rows: seq<Anchor>, id: Id, cell: Cell, f: Flight)
    requires CellHolds(c, rows, id, cell) && f.call.key == id && f.Drafted?
    requires cell.op.Some? && cell.op.value.Purchasing? && cell.op.value.flight == f
    ensures CellHolds(c, rows, id, cell.(op := Some(Purchasing(cell.op.value.approval, Returned(f.call, f.result))),
        cached := Some(f.result)))
  {
    hide TaskHolds;
  }

  /** What a stage makes of the cell, in the words of the lemmas above. */
  lemma StageIs(c: Config, ts: TrustState, f: Flight, cell: Cell, now: Time)
    requires InCell(ts, f, cell) && !Ended(f) && (f.Cleared? ==> f.call.key !in ts.payments)
    ensures var next := Advance(c.setup.controls, ts, f, now);
            var approval := cell.op.value.approval;
            var moved := if next.1.Raised? then cell.(op := None) else cell.(op := Some(Purchasing(approval, next.1)));
            StagedCell(cell, f, next.1, Lookup(next.0.payments, f.call.key), Lookup(next.0.purchases, f.call.key))
            == if f.Cleared? then moved.(payment := Some(next.1.result.paymentDraft), winner := Some(approval.quoteId))
               else if f.Drafted? then moved.(cached := Some(f.result))
               else moved
  {
  }

  lemma StageCell(c: Config, ts: TrustState, f: Flight, id: Id, cell: Cell, now: Time)
    requires FlightSound(c.setup.controls, ts, f) && f.call.key == id
    requires InCell(ts, f, cell) && CellHolds(c, ts.rows, id, cell) && !Ended(f)
    requires CellHolds(c, Advance(c.setup.controls, ts, f, now).0.rows, id, cell)
    ensures var next := Advance(c.setup.controls, ts, f, now);
            CellHolds(c, next.0.rows, id, StagedCell(cell, f, next.1, Lookup(next.0.payments, id),
                Lookup(next.0.purchases, id)))
  {
    hide CellHolds;
    var next := Advance(c.setup.controls, ts, f, now);
    if f.Cleared? {
      ClearedStage(c, ts, f, id, cell);
      StageIs(c, ts, f, cell, now);
    } else if f.Entered? {
      StageIs(c, ts, f, cell, now);
      EnteredStage(c, ts, f, id, cell, now);
    } else if f.Drafted? {
      StageIs(c, ts, f, cell, now);
      DraftedStage(c, ts.rows, id, cell, f);
    } else {
      StageIs(c, ts, f, cell, now);
      MiddleStage(c, next.0.rows, id, cell, f, next.1);
    }
  }
}
