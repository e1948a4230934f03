/** What the invariant means for anybody who reads a deal, approves it, signs it or gets its messages. */
module PurchaseTheorems {
  import opened Wrappers
  import opened Domain
  import opened Store
  import opened StoreRefinement
  import opened TrustService
  import opened DealService
  import opened PurchaseMachine
  import opened PurchaseInvariant
  import opened PurchaseRuns
  import opened Outbox
  import Workflow

  lemma HoldsAt(c: Config, sys: System, id: Id)
    requires Reachable(c, sys) && c.minimumQuotes >= 1 && id in sys.deals
    ensures KeysHold(sys) && CellHolds(c, sys.trust.rows, id, CellOf(sys, id))
  {
    hide CellHolds;
    ReachableHolds(c, sys);
  }

  /******* One draft per deal *******/

  /** All approvals of a deal that were ever answered carry the same order and the same payment draft,
      whatever was overwritten or failed in between; those of different deals never share one. */
  lemma OneDraftPerDeal(c: Config, sys: System, i: nat, j: nat)
    requires Reachable(c, sys) && c.minimumQuotes >= 1 && i < |sys.answers| && j < |sys.answers|
    ensures var a, b := sys.answers[i], sys.answers[j];
            if a.dealId == b.dealId then a.orderId == b.orderId && a.paymentDraftId == b.paymentDraftId
            else a.orderId != b.orderId && a.paymentDraftId != b.paymentDraftId
  {
    hide CellHolds;
    ReachableHolds(c, sys);
    var a, b := sys.answers[i], sys.answers[j];
    assert AnswerHolds(sys.trust, a) && AnswerHolds(sys.trust, b);
    if a.dealId != b.dealId { assert Apart(sys.trust.payments[a.dealId], sys.trust.payments[b.dealId]); }
  }

  lemma RecordedOrderAt(c: Config, sys: System, id: Id)
    requires Invariant(c, sys) && id in sys.deals && sys.deals[id].orderId.Some?
    ensures id in sys.trust.payments && sys.deals[id].orderId == Some(sys.trust.payments[id].orderId)
  {
    hide CellHolds, TaskHolds, RecordHolds, CacheHolds, TrustInvariant, AnswersHold, FlightHolds, Made;
    var cell := CellOf(sys, id);
    PartsHold(c, sys.trust.rows, id, cell);
    OrderedParts(c.setup, sys.trust.rows, cell);
  }

  /** No two records ever carry the same order, so the unique order column refuses no put. */
  lemma OrdersAreUnique(c: Config, sys: System, id: Id, other: Id)
    requires Reachable(c, sys) && c.minimumQuotes >= 1 && id in sys.deals && other in sys.deals && id != other
    requires sys.deals[id].orderId.Some?
    ensures sys.deals[other].orderId != sys.deals[id].orderId
  {
    hide CellHolds;
    ReachableHolds(c, sys);
    RecordedOrderAt(c, sys, id);
    if sys.deals[other].orderId.Some? {
      RecordedOrderAt(c, sys, other);
      assert Apart(sys.trust.payments[id], sys.trust.payments[other]);
    }
  }

  /** In every reachable state, a payment draft exists only for a deal whose mandate permits, at some instant,
      to create the intent, anchor it, ask the oracle and create the draft, for a need in its currency and of
      an allowed category. */
  lemma DraftIsPermitted(c: Config, sys: System, id: Id) returns (at: Time)
    requires Reachable(c, sys) && c.minimumQuotes >= 1 && id in sys.trust.payments
    ensures id in sys.deals
    ensures var mandate, intent := sys.deals[id].mandate, sys.deals[id].intent;
            && mandate.Permits(CreatePurchaseIntent, at) && mandate.Permits(AnchorIntent, at)
            && mandate.Permits(OracleProcess, at) && mandate.Permits(CreatePaymentDraft, at)
            && intent.currency == mandate.currency && intent.product.category in mandate.allowedCategories
  {
    hide CellHolds, RecordHolds, StateHolds, Made, TrustInvariant, AnswersHold, FlightHolds;
    ReachableHolds(c, sys);
    PartsHold(c, sys.trust.rows, id, CellOf(sys, id));
    var draft := sys.tasks[id].draft;
    at :| MayPurchase(draft.intent, draft.mandate, at);
  }

  /******* The whole record *******/

  /** Decision, snapshot, intent, draft, order and anchor of a record are about one and the same purchase, that of
      an eligible quote of its comparison at its total price, within the mandate. */
  predicate Agrees(s: Setup, rows: seq<Anchor>, deal: Deal) {
    && deal.humanDecision.Some? && deal.approvalSnapshot.Some? && deal.purchaseIntent.Some? && deal.paymentDraft.Some?
    && deal.order.Some? && deal.ledgerAnchor.Some? && deal.oracle.Some?
    && var decision, snapshot, intent := deal.humanDecision.value, deal.approvalSnapshot.value,
        deal.purchaseIntent.value;
    && var draft, order, anchor := deal.paymentDraft.value, deal.order.value, deal.ledgerAnchor.value;
    && deal.comparison.Some?
    && var found := FindEvaluated(deal.comparison.value.evaluatedQuotes, snapshot.quoteId);
    && found.Some? && found.value.eligible && Shows(snapshot, found.value)
    && snapshot.policyVersion == deal.mandate.version
    && snapshot.rankingVersion == deal.comparison.value.rankingVersion
    && decision.kind == Approve && decision.approver == deal.mandate.authorizedBy
    && decision.snapshotHash == snapshot.snapshotHash == intent.approvedSnapshotHash
    && snapshot.totalCost == intent.amount == draft.amount <= deal.mandate.maxTotal
    && snapshot.currency == intent.currency == draft.currency == deal.mandate.currency
    && snapshot.supplierId == intent.supplierAgentId == draft.payeeSupplierId == order.supplierId
    && snapshot.bankRequisitesHash == intent.recipientBindingHash == draft.recipientBindingHash
    && intent.dealId == deal.dealId && intent.buyerAgentId == deal.mandate.agentId
    && deal.selectedQuoteId == Some(snapshot.quoteId) && order.quoteId == snapshot.quoteId
    && deal.orderId == Some(draft.orderId) && order.orderId == draft.orderId
    && deal.paymentDraftId == Some(draft.paymentDraftId)
    && anchor in rows && anchor.dealId == deal.dealId && anchor.payloadHash == s.controls.intentHash(intent)
    && deal.oracle.value.verified && deal.oracle.value.purchaseIntentId == intent.intentId
  }

  lemma {:induction false} FoundHasId(items: seq<EvaluatedQuote>, quoteId: Id)
    ensures FindEvaluated(items, quoteId).Some? ==>
              FindEvaluated(items, quoteId).value in items
              && FindEvaluated(items, quoteId).value.quote.quoteId == quoteId
  {
    if items != [] {
      FoundHasId(items[1..], quoteId);
      assert items == [items[0]] + items[1..];
    }
  }

  /** An ordered record agrees when the quote it names is the one its deal's draft was created for. */
  lemma SameQuoteAgrees(c: Config, sys: System, id: Id)
    requires Reachable(c, sys) && c.minimumQuotes >= 1 && id in sys.deals && Ordered(sys.deals[id].status)
    requires id in sys.winners && sys.deals[id].selectedQuoteId == Some(sys.winners[id])
    ensures Agrees(c.setup, sys.trust.rows, sys.deals[id])
  {
    hide CellHolds, TaskHolds, RecordHolds, CacheHolds, Made, Purchased;
    HoldsAt(c, sys, id);
    PartsHold(c, sys.trust.rows, id, CellOf(sys, id));
    OrderedParts(c.setup, sys.trust.rows, CellOf(sys, id));
    PurchaseAgrees(c.setup, sys.trust.rows, sys.tasks[id], sys.deals[id], sys.winners[id], sys.trust.purchases[id]);
  }

  lemma PurchaseAgrees(s: Setup, rows: seq<Anchor>, task: Task, deal: Deal, winner: Id, a: Artifacts)
    requires Delivered(task) && HasContent(task, deal) && Ordered(deal.status) && deal.selectedQuoteId == Some(winner)
    requires Made(s, rows, TermsOf(task), winner, a) && Purchased(s, TermsOf(task), winner, a, deal)
    ensures Agrees(s, rows, deal)
  {
    var t := TermsOf(task);
    FoundHasId(t.comparison.evaluatedQuotes, winner);
    SnapshotShows(s, t.dealId, t.mandate.version, t.comparison.rankingVersion, ItemIn(t, winner).value,
        BindingFor(s, t, winner));
  }

  /** Safety of the whole record: in every reachable state, a deal whose workflow returned before its
      human steps and whose puts did not fail agrees in all its parts once it is ordered, and has no
      trace of a purchase before; rejected, changed and failed deals never get any. */
  lemma WholeRecord(c: Config, sys: System, id: Id)
    requires Reachable(c, sys) && c.minimumQuotes >= 1 && id in sys.deals && id !in sys.early && id !in sys.lost
    ensures Ordered(sys.deals[id].status) ==> Agrees(c.setup, sys.trust.rows, sys.deals[id])
    ensures !Ordered(sys.deals[id].status) ==> NoPurchase(sys.deals[id])
    ensures sys.deals[id].status in {Rejected, ChangesRequested, Failed} ==> id !in sys.trust.payments
  {
    hide OpHolds, TaskHolds, Made, Purchased, Agrees, PreviewSnapshot;
    HoldsAt(c, sys, id);
    if Ordered(sys.deals[id].status) {
      assert Intact(CellOf(sys, id));
      SameQuoteAgrees(c, sys, id);
    }
  }

  /** In every record, whatever was lost: purchases only in the two ordered states, a signature,
      the six steps of the fulfilment and three different documents exactly in completed ones, the decisions that
      allowed the purchase in ordered ones, and no other status ever appears. */
  lemma EveryRecord(c: Config, sys: System, id: Id)
    requires Reachable(c, sys) && c.minimumQuotes >= 1 && id in sys.deals
    ensures var deal := sys.deals[id];
            && deal.status != OrderCreated && deal.status != Fulfilling
            && (if Ordered(deal.status) then deal.order.Some? && deal.paymentDraft.Some? && deal.purchaseIntent.Some?
                else NoPurchase(deal))
            && (deal.status == Completed <==> deal.paymentDraft.Some? && deal.paymentDraft.value.status == Signed)
            && deal.fulfillment == (if deal.status == Completed then [0, 1, 2, 3, 4, 5] else [])
            && |deal.documents| == (if deal.status == Completed then 3 else 0) && DistinctDocuments(deal.documents)
            && (Ordered(deal.status) ==>
                  && (exists d :: d in deal.policyDecisions && d.allow && d.operation == CreatePurchaseIntent)
                  && (exists d :: d in deal.fraudDecisions && d.allow))
  {
    hide CellHolds, TaskHolds, RecordHolds, CacheHolds;
    HoldsAt(c, sys, id);
    PartsHold(c, sys.trust.rows, id, CellOf(sys, id));
    OrderedParts(c.setup, sys.trust.rows, CellOf(sys, id));
  }

  /** What an approval sends to the trust service was ranked eligible, so it is within the mandate's limit,
      and in its currency if the need is. */
  lemma ApprovedIsWithinLimits(c: Config, task: Task, id: Id, deal: Deal, approval: Approval, call: Call)
    requires TaskHolds(c, id, task, deal) && GoodCall(c.setup, task, approval, call)
    ensures call.quote.TotalCost() <= call.deal.mandate.maxTotal && call.quote.currency == call.deal.intent.currency
  {
    var t := TermsOf(task);
    FoundHasId(t.comparison.evaluatedQuotes, approval.quoteId);
    assert Workflow.Approvable(JobOf(task.draft, c.minimumQuotes), task.ws.quotes, t.comparison);
  }

  /** In every reachable state the oracle refuses no approval: ranking and policy have checked before what
      it checks, and only the kill switch can stop an anchored one. */
  lemma OracleNeverRefuses(c: Config, sys: System, approval: Approval, f: Flight)
    requires Reachable(c, sys) && c.minimumQuotes >= 1 && sys.op == Some(Purchasing(approval, f)) && f.Anchored?
    ensures WithinMandate(f.call)
    ensures Clear(c.setup.controls, sys.trust, f) != Raised(f.call, OracleRejected)
    ensures Clear(c.setup.controls, sys.trust, f).Cleared? <==> !c.setup.controls.killSwitch
  {
    hide Invariant, Clear, GoodCall, TaskHolds;
    ReachableHolds(c, sys);
    PurchaseIsGood(c, sys, approval, f);
    ApprovedIsWithinLimits(c, sys.tasks[f.call.key], f.call.key, sys.deals[f.call.key], approval, f.call);
    FlightIsSound(c, sys);
    ClearedIff(c.setup.controls, sys.trust, f);
  }

  lemma FlightIsSound(c: Config, sys: System)
    requires Invariant(c, sys) && sys.op.Some? && sys.op.value.Purchasing?
    ensures TrustInvariant(c.setup.controls, sys.trust)
    ensures FlightSound(c.setup.controls, sys.trust, sys.op.value.flight)
  {
    hide CellsHold, TrustInvariant, AnswersHold, FlightSound;
  }

  lemma PurchaseIsGood(c: Config, sys: System, approval: Approval, f: Flight)
    requires Invariant(c, sys) && sys.op == Some(Purchasing(approval, f))
    ensures f.call.key in sys.deals && f.call.key in sys.tasks
    ensures TaskHolds(c, f.call.key, sys.tasks[f.call.key], sys.deals[f.call.key])
    ensures GoodCall(c.setup, sys.tasks[f.call.key], approval, f.call)
  {
    hide TaskHolds, RecordHolds, CacheHolds, Intact, Calm, GoodCall;
    assert CellHolds(c, sys.trust.rows, f.call.key, CellOf(sys, f.call.key));
  }

  /******* When an approval was lost *******/

  /** The workflow's last put erases an approval that came too early, signed or not: the deal awaits approval
      again, while its draft and its artifacts stay issued. */
  lemma LastPutErasesApproval(c: Config, sys: System, id: Id, now: Time, kept: seq<Event>)
    requires Reachable(c, sys) && c.minimumQuotes >= 1 && AtWork(sys, id) && sys.tasks[id].phase == AtLastPut
    requires Ordered(sys.deals[id].status)
    requires RecordFromState(c.setup, sys.tasks[id].draft, sys.tasks[id].ws, now).Ok?
    ensures var after := Next(c, sys, TaskPut(id, now, kept));
            && after.deals[id].status == AwaitingApproval && NoPurchase(after.deals[id])
            && id in after.trust.purchases && id in after.early && after.trust == sys.trust
  {
    hide OpHolds, CacheHolds, StateHolds, Intact, Made, Purchased, TurnedDown, PreviewSnapshot;
    HoldsAt(c, sys, id);
  }

  /** The next approval is then answered from the cache: whatever quote it selects, the record it puts
      carries the first quote's intent, draft and anchor. */
  lemma SecondApprovalIsCached(c: Config, sys: System, id: Id, approval: Approval, now: Time, kept: seq<Event>)
    requires sys.op.None? && id in sys.deals && id in sys.trust.purchases
    requires StartApproval(c.setup, id, sys.deals[id], approval, now).Calls?
    ensures var call := StartApproval(c.setup, id, sys.deals[id], approval, now).call;
            var after := Next(c, Next(c, Next(c, sys, BeginApprove(id, approval, now)), TrustStage(now)),
                OpPut(now, kept));
            && after.op.None? && after.trust == sys.trust
            && after.deals == sys.deals[id :=
                ApprovedRecord(approval, call, sys.trust.purchases[id], now).(events := kept)]
            && (sys.trust.purchases[id].purchaseIntent.supplierAgentId != call.quote.supplierId
                ==> !Agrees(c.setup, after.trust.rows, after.deals[id]))
  {
    hide StartApproval, Agrees, Advance;
    var call, a := StartApproval(c.setup, id, sys.deals[id], approval, now).call, sys.trust.purchases[id];
    var locked := Locked(sys, Purchasing(approval, Entered(call)));
    ApprovalLocks(c, sys, id, approval, now);
    CachedAnswer(c, locked, approval, call, now);
    if a.purchaseIntent.supplierAgentId != call.quote.supplierId {
      MixedRecordDisagrees(c.setup, sys.trust.rows, approval, call, a, now, kept);
    }
  }

  lemma MixedRecordDisagrees(s: Setup, rows: seq<Anchor>, approval: Approval, call: Call, a: Artifacts, now: Time,
      kept: seq<Event>)
    requires a.purchaseIntent.supplierAgentId != call.quote.supplierId
    ensures !Agrees(s, rows, ApprovedRecord(approval, call, a, now).(events := kept))
  {
  }

  lemma ApprovalLocks(c: Config, sys: System, id: Id, approval: Approval, now: Time)
    requires sys.op.None? && id in sys.deals && StartApproval(c.setup, id, sys.deals[id], approval, now).Calls?
    ensures var call := StartApproval(c.setup, id, sys.deals[id], approval, now).call;
            && call.key == id
            && Next(c, sys, BeginApprove(id, approval, now)) == Locked(sys, Purchasing(approval, Entered(call)))
  {
    hide BuildSnapshot;
  }

  lemma CachedAnswer(c: Config, sys: System, approval: Approval, call: Call, now: Time)
    requires sys.op == Some(Purchasing(approval, Entered(call))) && call.key in sys.trust.purchases
    ensures Next(c, sys, TrustStage(now)) ==
        sys.(op := Some(Purchasing(approval, Returned(call, sys.trust.purchases[call.key]))))
  {
  }

  /** Two different payloads with the same snapshot hash. */
  predicate SnapshotCollision(s: Setup, a: SnapshotPayload, b: SnapshotPayload) {
    a != b && s.snapshotHash(a) == s.snapshotHash(b)
  }

  lemma PayloadNamesQuote(s: Setup, t: Terms, quoteId: Id)
    requires Buyable(s, t, quoteId)
    ensures PayloadFor(s, t, quoteId).quoteId == quoteId
    ensures SnapshotFor(s, t, quoteId).snapshotHash == s.snapshotHash(PayloadFor(s, t, quoteId))
  {
    FoundHasId(t.comparison.evaluatedQuotes, quoteId);
  }

  /** Exactly when a record agrees: in every reachable state, for every ordered deal, it agrees if and
      only if the quote it names is the quote the deal's draft was created for, unless the payloads of
      the two quotes collide under the snapshot hash. */
  lemma AgreesIff(c: Config, sys: System, id: Id)
    requires Reachable(c, sys) && c.minimumQuotes >= 1 && id in sys.deals && Ordered(sys.deals[id].status)
    ensures id in sys.tasks && Delivered(sys.tasks[id]) && id in sys.winners && sys.deals[id].selectedQuoteId.Some?
    ensures var t, q, w := TermsOf(sys.tasks[id]), sys.deals[id].selectedQuoteId.value, sys.winners[id];
            && Buyable(c.setup, t, q) && Buyable(c.setup, t, w)
            && ((Agrees(c.setup, sys.trust.rows, sys.deals[id]) <==> q == w)
                || SnapshotCollision(c.setup, PayloadFor(c.setup, t, q), PayloadFor(c.setup, t, w)))
  {
    hide OpHolds, TaskHolds, Intact, Calm, PreviewSnapshot;
    HoldsAt(c, sys, id);
    var deal, t, w := sys.deals[id], TermsOf(sys.tasks[id]), sys.winners[id];
    var q := deal.selectedQuoteId.value;
    assert Made(c.setup, sys.trust.rows, t, w, sys.trust.purchases[id]);
    assert Purchased(c.setup, t, q, sys.trust.purchases[id], deal);
    PayloadNamesQuote(c.setup, t, q);
    PayloadNamesQuote(c.setup, t, w);
    if q == w { SameQuoteAgrees(c, sys, id); }
  }

  /******* Preview *******/

  /** Every deal that awaits approval shows a snapshot, and approving its recommended quote with the
      displayed hash is never refused for the hash. */
  lemma DisplayedHashIsAccepted(c: Config, sys: System, id: Id, approval: Approval, now: Time)
    requires Reachable(c, sys) && c.minimumQuotes >= 1 && id in sys.deals && sys.deals[id].status == AwaitingApproval
    ensures sys.deals[id].approvalSnapshot.Some? && sys.deals[id].comparison.Some?
    ensures Some(approval.quoteId) == sys.deals[id].comparison.value.recommendedQuoteId ==>
              (StartApproval(c.setup, id, sys.deals[id], approval, now) == Refused(SnapshotHashMismatch)
               ==> approval.snapshotHash != sys.deals[id].approvalSnapshot.value.snapshotHash)
  {
    hide CellHolds;
    HoldsAt(c, sys, id);
    AwaitingShows(c, sys, id);
    var deal := sys.deals[id];
    var item := deal.comparison.value.evaluatedQuotes[0];
    assert FindEvaluated(deal.comparison.value.evaluatedQuotes, item.quote.quoteId) == Some(item);
  }

  /** The stored preview is the snapshot of the head of the ranking. */
  lemma AwaitingShows(c: Config, sys: System, id: Id)
    requires id in sys.deals && id in sys.tasks && sys.deals[id].status == AwaitingApproval
    requires CellHolds(c, sys.trust.rows, id, CellOf(sys, id))
    ensures var deal := sys.deals[id];
            && deal.comparison.Some? && deal.comparison.value.evaluatedQuotes != []
            && var item := deal.comparison.value.evaluatedQuotes[0];
            && item.eligible && deal.comparison.value.recommendedQuoteId == Some(item.quote.quoteId)
            && deal.approvalSnapshot.Some? && BuildSnapshot(c.setup, deal, item) == Ok(deal.approvalSnapshot.value)
  {
    hide OpHolds, CacheHolds, Intact, Calm, Purchased, TurnedDown, PayloadOf;
    assert Workflow.Ready(JobOf(sys.tasks[id].draft, c.minimumQuotes), sys.tasks[id].ws);
    var items := sys.deals[id].comparison.value.evaluatedQuotes;
    assert FindEvaluated(items, items[0].quote.quoteId) == Some(items[0]);
  }

  /** What every deal that awaits approval shows its approver: each term of the recommended quote, the head of the
      ranking, with its total price and score, the supplier's registered bank binding, and both versions. */
  lemma AwaitingSnapshot(c: Config, sys: System, id: Id)
    requires Reachable(c, sys) && c.minimumQuotes >= 1 && id in sys.deals && sys.deals[id].status == AwaitingApproval
    ensures var deal := sys.deals[id];
            && deal.approvalSnapshot.Some? && deal.comparison.Some? && deal.comparison.value.evaluatedQuotes != []
            && var snapshot, item := deal.approvalSnapshot.value, deal.comparison.value.evaluatedQuotes[0];
            && deal.comparison.value.recommendedQuoteId == Some(item.quote.quoteId) && item.eligible
            && Shows(snapshot, item)
            && snapshot.policyVersion == deal.mandate.version
            && snapshot.rankingVersion == deal.comparison.value.rankingVersion
            && var found := FindSupplier(c.setup.controls.suppliers, item.quote.supplierId);
            && found.Ok? && snapshot.bankRequisitesHash == found.value.bankBindingHash
            && snapshot.snapshotHash == c.setup.snapshotHash(
                 PayloadOf(id, deal.mandate.version, snapshot.rankingVersion, item, found.value.bankBindingHash))
  {
    hide CellHolds, SnapshotOf, Shows, PayloadOf;
    HoldsAt(c, sys, id);
    StoredId(c, sys, id);
    AwaitingShows(c, sys, id);
    var deal := sys.deals[id];
    var item := deal.comparison.value.evaluatedQuotes[0];
    SnapshotShows(c.setup, deal.dealId, deal.mandate.version, RankingVersionOf(deal.comparison), item,
        RecipientBinding(c.setup.controls, item.quote.supplierId).value);
  }

  /******* Signatures *******/

  lemma {:induction false} QuoteIsFound(quotes: seq<Quote>, q: Quote)
    requires q in quotes
    ensures FindQuote(quotes, q.quoteId).Some? && FindQuote(quotes, q.quoteId).value.quoteId == q.quoteId
    ensures FindQuote(quotes, q.quoteId).value in quotes
    ensures DistinctQuoteIds(quotes) ==> FindQuote(quotes, q.quoteId).value == q
  {
    if quotes[0].quoteId != q.quoteId {
      assert quotes == [quotes[0]] + quotes[1..];
      assert DistinctQuoteIds(quotes) ==> DistinctQuoteIds(quotes[1..]);
      QuoteIsFound(quotes[1..], q);
    }
  }

  /** The record holds everything a signature needs, and its quote list the selected quote. */
  lemma ReadyToSign(c: Config, sys: System, id: Id)
    requires id in sys.deals && id in sys.tasks && Ordered(sys.deals[id].status)
    requires CellHolds(c, sys.trust.rows, id, CellOf(sys, id))
    ensures var deal := sys.deals[id];
            && deal.paymentDraft.Some? && deal.orderId.Some? && deal.approvalSnapshot.Some? && deal.order.Some?
            && deal.selectedQuoteId.Some? && FindQuote(deal.quotes, deal.selectedQuoteId.value).Some?
            && (DistinctQuoteIds(deal.quotes) ==>
                  FindQuote(deal.quotes, deal.selectedQuoteId.value).value.supplierId == deal.order.value.supplierId)
            && exists q :: q in deal.quotes && q.quoteId == deal.selectedQuoteId.value
                && q.supplierId == deal.order.value.supplierId
  {
    hide OpHolds, Intact, Calm, Made, TurnedDown, PreviewSnapshot, SnapshotFor;
    var deal, t := sys.deals[id], TermsOf(sys.tasks[id]);
    var q := deal.selectedQuoteId.value;
    FoundHasId(t.comparison.evaluatedQuotes, q);
    assert Workflow.Ready(JobOf(sys.tasks[id].draft, c.minimumQuotes), sys.tasks[id].ws);
    QuoteIsFound(deal.quotes, ItemIn(t, q).value.quote);
  }

  /** A deal that requires a signature is never "incomplete": an authorised, confirmed request with the
      matching draft id under a mandate that still permits it is accepted, and with distinct quote ids
      the fulfilling supplier is the one the order names. */
  lemma SignatureProgress(c: Config, sys: System, id: Id, request: SignatureRequest, now: Time)
    requires Reachable(c, sys) && c.minimumQuotes >= 1 && id in sys.deals
    requires sys.deals[id].status == PaymentSignatureRequired
    ensures StartSignature(id, sys.deals[id], request, now) != SignatureRefused(StateIncomplete)
    ensures StartSignature(id, sys.deals[id], request, now).Signs? <==>
              && sys.deals[id].mandate.Permits(EdoAction, now) && request.confirmation
              && request.signedBy == sys.deals[id].mandate.authorizedBy
              && Some(request.paymentDraftId) == sys.deals[id].paymentDraftId
    ensures DistinctQuoteIds(sys.deals[id].quotes) && StartSignature(id, sys.deals[id], request, now).Signs? ==>
              && sys.deals[id].order.Some?
              && StartSignature(id, sys.deals[id], request, now).quote.supplierId
                  == sys.deals[id].order.value.supplierId
  {
    hide CellHolds;
    HoldsAt(c, sys, id);
    ReadyToSign(c, sys, id);
  }

  /** A quote of this id from another supplier comes before the first one from this supplier. */
  predicate Preempted(quotes: seq<Quote>, quoteId: Id, supplierId: AgentId) {
    exists j :: 0 <= j < |quotes| && quotes[j].quoteId == quoteId && quotes[j].supplierId != supplierId
                && forall i :: 0 <= i < j ==> !(quotes[i].quoteId == quoteId && quotes[i].supplierId == supplierId)
  }

  lemma {:induction false} FoundIsFirst(quotes: seq<Quote>, quoteId: Id) returns (k: nat)
    requires FindQuote(quotes, quoteId).Some?
    ensures k < |quotes| && quotes[k] == FindQuote(quotes, quoteId).value && quotes[k].quoteId == quoteId
    ensures forall i :: 0 <= i < k ==> quotes[i].quoteId != quoteId
  {
    if quotes[0].quoteId == quoteId {
      k := 0;
    } else {
      var r := FoundIsFirst(quotes[1..], quoteId);
      k := r + 1;
      assert forall i :: 0 < i < k ==> quotes[i] == quotes[1..][i - 1];
    }
  }

  lemma LookupIsRightIff(quotes: seq<Quote>, quoteId: Id, supplierId: AgentId)
    requires exists q :: q in quotes && q.quoteId == quoteId && q.supplierId == supplierId
    requires FindQuote(quotes, quoteId).Some?
    ensures FindQuote(quotes, quoteId).value.supplierId == supplierId <==> !Preempted(quotes, quoteId, supplierId)
  {
    var k := FoundIsFirst(quotes, quoteId);
    if quotes[k].supplierId != supplierId {
      assert Preempted(quotes, quoteId, supplierId);
    }
  }

  /** Exactly when a signature instructs the supplier that was ordered from: in every reachable state, for
      every deal that requires a signature and every accepted request, iff no quote of the selected id from
      another supplier came in before the ordered supplier's first one. */
  lemma SignatureInstructsIff(c: Config, sys: System, id: Id, request: SignatureRequest, now: Time)
    requires Reachable(c, sys) && c.minimumQuotes >= 1 && id in sys.deals
    requires sys.deals[id].status == PaymentSignatureRequired
    requires StartSignature(id, sys.deals[id], request, now).Signs?
    ensures sys.deals[id].order.Some? && sys.deals[id].selectedQuoteId.Some?
    ensures var deal := sys.deals[id];
            StartSignature(id, deal, request, now).quote.supplierId == deal.order.value.supplierId
            <==> !Preempted(deal.quotes, deal.selectedQuoteId.value, deal.order.value.supplierId)
  {
    hide CellHolds, Preempted;
    HoldsAt(c, sys, id);
    ReadyToSign(c, sys, id);
    var deal := sys.deals[id];
    LookupIsRightIff(deal.quotes, deal.selectedQuoteId.value, deal.order.value.supplierId);
  }

  lemma SignedStep(c: Config, sys: System, id: Id, request: SignatureRequest, now: Time)
    requires sys.op.None? && id in sys.deals && sys.deals[id].dealId == id
    requires StartSignature(id, sys.deals[id], request, now).Signs?
    ensures var quote := StartSignature(id, sys.deals[id], request, now).quote;
            var begun := Next(c, sys, BeginSign(id, request, now));
            && begun.op == Some(Signing(SignedRecord(sys.deals[id], request, quote, sys.trust.nextId, now), quote))
            && begun.deals == sys.deals && begun.answers == sys.answers && begun.outbox == sys.outbox
            && begun.trust == sys.trust.(nextId := sys.trust.nextId + 3)
            && (Finished(sys, id) ==> begun.early == sys.early)
  {
    hide LifecycleEvents;
  }

  /** An accepted signature, undisturbed, completes the deal, publishes its messages and touches no other deal. */
  lemma SignatureCompletes(c: Config, sys: System, id: Id, request: SignatureRequest, now: Time, kept: seq<Event>)
    requires Reachable(c, sys) && c.minimumQuotes >= 1 && sys.op.None? && id in sys.deals
    requires StartSignature(id, sys.deals[id], request, now).Signs?
    ensures var quote := StartSignature(id, sys.deals[id], request, now).quote;
            var signed := SignedRecord(sys.deals[id], request, quote, sys.trust.nextId, now);
            var stored := Next(c, Next(c, sys, BeginSign(id, request, now)), OpPut(now, kept));
            var after := Next(c, Next(c, stored, AppendMessages), PublishMessages);
            && after.op.None? && after.answers == sys.answers
            && after.deals == sys.deals[id := signed.(events := kept)]
            && after.outbox ==
                Publish(AppendAll(sys.outbox,
                    DealMessages(id, signed.supplierIds, quote.supplierId, signed.documents)), id)
  {
    hide CellHolds, SignedRecord, DealMessages;
    HoldsAt(c, sys, id);
    StoredId(c, sys, id);
    SignatureState(id, sys.deals[id], request, now);
    SignedStep(c, sys, id, request, now);
    var quote := StartSignature(id, sys.deals[id], request, now).quote;
    var signed := SignedRecord(sys.deals[id], request, quote, sys.trust.nextId, now);
    SignedKeepsIds(sys.deals[id], request, quote, sys.trust.nextId, now);
    SignatureSteps(c, Next(c, sys, BeginSign(id, request, now)), signed, quote, now, kept);
  }

  lemma SignedKeepsIds(deal: Deal, request: SignatureRequest, quote: Quote, documentId: Id, now: Time)
    requires deal.approvalSnapshot.Some? && deal.orderId.Some? && deal.paymentDraft.Some?
    ensures var signed := SignedRecord(deal, request, quote, documentId, now);
            signed.dealId == deal.dealId && signed.orderId == deal.orderId
                && signed.paymentDraftId == deal.paymentDraftId
  {
  }

  lemma SignatureSteps(c: Config, sys: System, signed: Deal, quote: Quote, now: Time, kept: seq<Event>)
    requires sys.op == Some(Signing(signed, quote)) && signed.orderId.Some? && signed.paymentDraftId.Some?
    ensures var after := Next(c, Next(c, Next(c, sys, OpPut(now, kept)), AppendMessages), PublishMessages);
            && after.op.None? && after.answers == sys.answers && after.trust == sys.trust
            && after.deals == sys.deals[signed.dealId := signed.(events := kept)]
            && after.outbox ==
                Publish(AppendAll(sys.outbox,
                    DealMessages(signed.dealId, signed.supplierIds, quote.supplierId, signed.documents)), signed.dealId)
  {
    hide AppendAll, DealMessages, Publish;
  }

  lemma SignatureState(id: Id, deal: Deal, request: SignatureRequest, now: Time)
    requires StartSignature(id, deal, request, now).Signs?
    ensures deal.paymentDraft.Some? && deal.approvalSnapshot.Some? && deal.orderId.Some? && deal.paymentDraftId.Some?
  {
  }

  /******* The store behind the machine *******/

  /** What a reader of the SQL store sees. */
  function Records(tables: Tables): map<Id, Deal> {
    map id | id in tables.rows :: ToRecord(tables, id)
  }

  /** A put to the SQL store is a put of the machine, with the longer of the two event lists kept. */
  lemma SqlPutIsMachinePut(tables: Tables, deal: Deal)
    requires WellFormed(tables)
    requires deal.orderId.Some? ==> forall id :: id in tables.rows && id != deal.dealId ==>
        ToRecord(tables, id).orderId != deal.orderId
    ensures SqlPut(tables, deal).Ok? && WellFormed(AfterPut(tables, deal))
    ensures Records(AfterPut(tables, deal))
         == Records(tables)[deal.dealId := deal.(events := Stored(AfterPut(tables, deal), deal.dealId))]
  {
    hide Stored, WellFormed, ToRecord, OrderTaken, NewEventRows;
    OrderNotTaken(tables, deal);
    PutWellFormed(tables, deal);
    var after := AfterPut(tables, deal);
    forall id | id in after.rows
      ensures ToRecord(after, id) == if id == deal.dealId then deal.(events := Stored(after, id))
          else ToRecord(tables, id)
    {
      RecordAfterPut(tables, deal, id);
    }
  }

  lemma OrderNotTaken(tables: Tables, deal: Deal)
    requires WellFormed(tables)
    requires deal.orderId.Some? ==> forall id :: id in tables.rows && id != deal.dealId ==>
        ToRecord(tables, id).orderId != deal.orderId
    ensures !OrderTaken(tables, deal)
  {
    forall id | id in tables.rows && id != deal.dealId
      ensures deal.orderId.Some? ==> tables.rows[id].orderId != deal.orderId
    {
      RecordIs(tables, id);
    }
  }

  lemma RecordAfterPut(tables: Tables, deal: Deal, id: Id)
    requires WellFormed(tables) && SqlPut(tables, deal).Ok? && id in AfterPut(tables, deal).rows
    ensures ToRecord(AfterPut(tables, deal), id)
         == if id == deal.dealId then deal.(events := Stored(AfterPut(tables, deal), id)) else ToRecord(tables, id)
  {
    PutWellFormed(tables, deal);
    RecordIs(AfterPut(tables, deal), id);
    PutGrowsLog(tables, deal, id);
    if id != deal.dealId { RecordIs(tables, id); }
  }
}
