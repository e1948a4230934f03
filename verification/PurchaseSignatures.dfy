/** Everything a signature sends: to the suppliers, to the payment adapter, and to the sources of its documents. */
module PurchaseSignatures {
  import opened Wrappers
  import opened Domain
  import opened TrustService
  import opened DealService
  import opened Outbox
  import opened PurchaseMachine
  import opened PurchaseInvariant
  import opened PurchaseRuns
  import opened PurchaseTheorems
  import opened PurchaseMessages
  import opened PurchaseVerdicts
  import opened StepRefinement

  /******* Document ids are drawn once *******/

  function DocumentsToSend(op: Option<Op>): seq<Document> {
    match op
    case Some(Signing(updated, _)) => updated.documents
    case Some(Messaging(deal, _)) => deal.documents
    case _ => []
  }

  ghost predicate RowsBelow(rows: seq<Message>, n: Id) {
    forall i :: 0 <= i < |rows| && rows[i].key.DocumentKey? ==> rows[i].key.documentId < n
  }

  ghost predicate DocumentsBelow(documents: seq<Document>, n: Id) {
    forall d :: d in documents ==> d.documentId < n
  }

  /** Every document that was announced, or is about to be, has an id that was drawn. */
  ghost predicate IdsDrawn(sys: System) {
    RowsBelow(sys.outbox, sys.trust.nextId) && DocumentsBelow(DocumentsToSend(sys.op), sys.trust.nextId)
  }

  lemma IdsGrow(c: Config, sys: System, step: Step)
    ensures sys.trust.nextId <= Next(c, sys, step).trust.nextId
  {
    hide StartApproval, DecidedRecord, StartSignature, RecordFromState, NodeDone, SignedRecord, ApprovedRecord;
    hide Policies;
  }

  lemma NewAreDrawn(deal: Deal, request: SignatureRequest, quote: Quote, n: Id, now: Time)
    requires deal.approvalSnapshot.Some? && deal.orderId.Some? && deal.paymentDraft.Some?
    ensures DocumentsBelow(SignedRecord(deal, request, quote, n, now).documents, n + 3)
  {
    hide LifecycleEvents;
  }

  lemma ToSendAreDrawn(c: Config, sys: System, step: Step)
    requires DocumentsBelow(DocumentsToSend(sys.op), sys.trust.nextId)
    ensures DocumentsBelow(DocumentsToSend(Next(c, sys, step).op), Next(c, sys, step).trust.nextId)
  {
    hide StartApproval, DecidedRecord, StartSignature, RecordFromState, NodeDone, ApprovedRecord, Advance;
    hide SignedRecord;
    IdsGrow(c, sys, step);
    if step.BeginSign? && sys.op.None? && step.dealId in sys.deals {
      var start := StartSignature(step.dealId, sys.deals[step.dealId], step.request, step.now);
      if start.Signs? {
        SignatureState(step.dealId, sys.deals[step.dealId], step.request, step.now);
        NewAreDrawn(sys.deals[step.dealId], step.request, start.quote, sys.trust.nextId, step.now);
      }
    }
  }

  lemma AppendedBelow(rows: seq<Message>, id: Id, suppliers: seq<AgentId>, winner: AgentId, documents: seq<Document>,
      n: Id)
    requires UniqueKeys(rows) && RowsBelow(rows, n) && DocumentsBelow(documents, n)
    ensures RowsBelow(AppendAll(rows, DealMessages(id, suppliers, winner, documents)), n)
  {
    hide AppendAll, DealMessages;
    var messages := DealMessages(id, suppliers, winner, documents);
    var after := AppendAll(rows, messages);
    AppendConserves(rows, messages);
    forall i | 0 <= i < |after| && after[i].key.DocumentKey? ensures after[i].key.documentId < n {
      assert after[i] in after;
      DealMessagesExact(id, suppliers, winner, documents, after[i]);
    }
  }

  lemma StepKeepsDrawn(c: Config, sys: System, step: Step)
    requires UniqueKeys(sys.outbox) && AttemptsMatch(sys.outbox) && IdsDrawn(sys)
    ensures IdsDrawn(Next(c, sys, step))
  {
    hide AppendAll, DealMessages, Publish, UniqueKeys, AttemptsMatch, Next, DocumentsBelow, DocumentsToSend, RowsBelow;
    var n := sys.trust.nextId;
    IdsGrow(c, sys, step);
    ToSendAreDrawn(c, sys, step);
    OutboxBelow(c, sys, step);
    RowsStayBelow(Next(c, sys, step).outbox, n, Next(c, sys, step).trust.nextId);
  }

  lemma RowsStayBelow(rows: seq<Message>, n: Id, m: Id)
    requires RowsBelow(rows, n) && n <= m
    ensures RowsBelow(rows, m)
  {
  }

  lemma OutboxBelow(c: Config, sys: System, step: Step)
    requires UniqueKeys(sys.outbox) && AttemptsMatch(sys.outbox) && IdsDrawn(sys)
    ensures RowsBelow(Next(c, sys, step).outbox, sys.trust.nextId)
  {
    hide AppendAll, DealMessages, Publish, UniqueKeys, AttemptsMatch, RowsBelow, DocumentsBelow;
    var n := sys.trust.nextId;
    if step.AppendMessages? && sys.op.Some? && sys.op.value.Messaging? {
      var deal, quote := sys.op.value.deal, sys.op.value.quote;
      AppendedBelow(sys.outbox, deal.dealId, deal.supplierIds, quote.supplierId, deal.documents, n);
      NothingAppended(sys.outbox);
    } else if step.PublishMessages? && sys.op.Some? && sys.op.value.Publishing? {
      PublishedBelow(sys.outbox, sys.op.value.dealId, n);
    } else {
      OutboxRests(c, sys, step);
    }
  }

  lemma NothingAppended(rows: seq<Message>)
    ensures AppendAll(rows, []) == rows
  {
  }

  lemma PublishedBelow(rows: seq<Message>, id: Id, n: Id)
    requires RowsBelow(rows, n)
    ensures RowsBelow(Publish(rows, id), n)
  {
  }

  lemma {:induction false} ExecuteKeepsDrawn(c: Config, sys: System, steps: seq<Step>)
    requires Invariant(c, sys) && MessagesHold(sys) && IdsDrawn(sys) && c.minimumQuotes >= 1
    ensures IdsDrawn(Execute(c, sys, steps))
    decreases |steps|
  {
    hide Invariant, IdsDrawn, Next;
    if steps != [] {
      StepKeepsDrawn(c, sys, steps[0]);
      MessagesKept(c, sys, steps[0]);
      NextKeeps(c, sys, steps[0]);
      ExecuteKeepsDrawn(c, Next(c, sys, steps[0]), steps[1..]);
    }
  }

  lemma ReachableDrawn(c: Config, sys: System)
    requires Reachable(c, sys) && c.minimumQuotes >= 1
    ensures IdsDrawn(sys)
  {
    hide Invariant;
    EmptyInvariant(c);
    EmptyVerdicts();
    var steps: seq<Step> :| Execute(c, EMPTY_SYSTEM, steps) == sys;
    ExecuteKeepsDrawn(c, EMPTY_SYSTEM, steps);
  }

  /******* What one signature sends *******/

  /** The message is one that was stored before, now published. */
  ghost predicate WasStored(rows: seq<Message>, m: Message) {
    exists r :: r in rows && r.aggregateId == m.aggregateId && m == r.(status := Published, attempts := 1)
  }

  /** A stored message under a key that the deal is about to write is the message it owes, unless the key is that of
      a document. */
  lemma StoredIsOwed(rows: seq<Message>, id: Id, suppliers: seq<AgentId>, winner: AgentId, documents: seq<Document>,
      m: Message, r: Message)
    requires TableHolds(rows) && r in rows && r.key == m.key && !m.key.DocumentKey?
    requires Owed(m, id, suppliers, winner, documents)
    ensures r.aggregateId == id && r.recipient == m.recipient && r.messageType == m.messageType
  {
    var i :| 0 <= i < |rows| && rows[i] == r;
    assert KeyMatches(rows[i]);
  }

  lemma StoredBelow(rows: seq<Message>, n: Id, r: Message)
    requires RowsBelow(rows, n) && r in rows
    ensures r.key.DocumentKey? ==> r.key.documentId < n
  {
    var i :| 0 <= i < |rows| && rows[i] == r;
  }

  lemma AppendedHolds(rows: seq<Message>, id: Id, suppliers: seq<AgentId>, winner: AgentId, documents: seq<Document>,
      n: Id, m: Message)
    returns (r: Message)
    requires TableHolds(rows) && RowsBelow(rows, n) && DistinctDocuments(documents)
    requires forall d :: d in documents ==> d.documentId >= n
    requires Owed(m, id, suppliers, winner, documents)
    ensures r in AppendAll(rows, DealMessages(id, suppliers, winner, documents))
    ensures r.aggregateId == id && r.recipient == m.recipient && r.messageType == m.messageType && r.key == m.key
  {
    hide DealMessages, AppendAll, HasKey, TableHolds;
    var messages := DealMessages(id, suppliers, winner, documents);
    var after := AppendAll(rows, messages);
    TableUnique(rows);
    AppendConserves(rows, messages);
    var sent := m.(status := Pending, attempts := 0);
    DealMessagesExact(id, suppliers, winner, documents, sent);
    HasKeyIff(messages, m.key);
    HasKeyIff(after, m.key);
    r :| r in after && r.key == m.key;
    DealMessagesExact(id, suppliers, winner, documents, r);
    if r in messages {
      OwedByKey(id, suppliers, winner, documents, m, r);
    } else {
      StoredBelow(rows, n, r);
      if !m.key.DocumentKey? { StoredIsOwed(rows, id, suppliers, winner, documents, m, r); }
    }
  }

  /** After the append and the publication the messages of the deal are those it owes and those stored before, all
      published. */
  lemma SignedMessages(rows: seq<Message>, id: Id, suppliers: seq<AgentId>, winner: AgentId, documents: seq<Document>,
      n: Id, m: Message)
    requires TableHolds(rows) && RowsBelow(rows, n) && DistinctDocuments(documents) && m.aggregateId == id
    requires forall d :: d in documents ==> d.documentId >= n
    ensures m in Publish(AppendAll(rows, DealMessages(id, suppliers, winner, documents)), id)
        <==> && m.status == Published && m.attempts == 1
             && (Owed(m, id, suppliers, winner, documents) || WasStored(rows, m))
  {
    hide DealMessages, AppendAll, Publish, Owed, RowsBelow;
    var appended := AppendAll(rows, DealMessages(id, suppliers, winner, documents));
    var after := Publish(appended, id);
    AppendsFor(rows, id, suppliers, winner, documents);
    AppendConserves(rows, DealMessages(id, suppliers, winner, documents));
    PublishConserves(appended, id);
    if m in after {
      var i :| 0 <= i < |after| && after[i] == m;
      assert appended[i] in appended;
      DealMessagesExact(id, suppliers, winner, documents, appended[i]);
      OwedAnyhow(appended[i], m, id, suppliers, winner, documents);
    } else if m.status == Published && m.attempts == 1 {
      if WasStored(rows, m) {
        var r :| r in rows && r.aggregateId == id && m == r.(status := Published, attempts := 1);
        PublishedIn(appended, id, r);
      } else if Owed(m, id, suppliers, winner, documents) {
        var r := AppendedHolds(rows, id, suppliers, winner, documents, n, m);
        PublishedIn(appended, id, r);
      }
    }
  }

  lemma OwedAnyhow(r: Message, m: Message, id: Id, suppliers: seq<AgentId>, winner: AgentId, documents: seq<Document>)
    requires m == r.(status := m.status, attempts := m.attempts)
    ensures Owed(m, id, suppliers, winner, documents) == Owed(r, id, suppliers, winner, documents)
  {
  }

  lemma PublishedIn(rows: seq<Message>, id: Id, r: Message)
    requires UniqueKeys(rows) && AttemptsMatch(rows) && r in rows && r.aggregateId == id
    ensures r.(status := Published, attempts := 1) in Publish(rows, id)
  {
    hide Publish;
    PublishConserves(rows, id);
    var i :| 0 <= i < |rows| && rows[i] == r;
    assert Publish(rows, id)[i] in Publish(rows, id);
  }

  lemma SignedDocuments(id: Id, deal: Deal, request: SignatureRequest, n: Id, now: Time)
    requires StartSignature(id, deal, request, now).Signs?
    requires deal.approvalSnapshot.Some? && deal.orderId.Some? && deal.paymentDraft.Some?
    ensures var quote := StartSignature(id, deal, request, now).quote;
            var signed := SignedRecord(deal, request, quote, n, now);
            && signed.supplierIds == deal.supplierIds && DistinctDocuments(signed.documents)
            && signed.documents == [
                 Document(n, "mock-edo:" + quote.supplierId), Document(n + 1, "mock-edo:" + quote.supplierId),
                 Document(n + 2, "mock-edo:" + quote.supplierId)]
            && (forall d :: d in signed.documents ==> d.documentId >= n)
  {
    hide LifecycleEvents, StartSignature;
  }

  lemma PublishedTable(rows: seq<Message>, id: Id, suppliers: seq<AgentId>, winner: AgentId, documents: seq<Document>)
    requires TableHolds(rows)
    ensures TableHolds(Publish(AppendAll(rows, DealMessages(id, suppliers, winner, documents)), id))
  {
    hide TableHolds, DealMessages, AppendAll, Publish;
    AppendsFor(rows, id, suppliers, winner, documents);
    PublishFrame(AppendAll(rows, DealMessages(id, suppliers, winner, documents)), id);
  }

  lemma OwedToOthers(id: Id, suppliers: seq<AgentId>, winner: AgentId, documents: seq<Document>)
    ensures Owed(Message(id, "payment-adapter", PaymentDraftMessage, PaymentDraftKey(id), Published, 1), id, suppliers,
                 winner, documents)
    ensures forall d :: d in documents ==>
        Owed(Message(id, d.source, DocumentMessage, DocumentKey(id, d.documentId), Published, 1), id, suppliers, winner,
             documents)
  {
  }

  lemma DraftIsSent(rows: seq<Message>, id: Id)
    requires TableHolds(rows)
    requires Message(id, "payment-adapter", PaymentDraftMessage, PaymentDraftKey(id), Published, 1) in rows
    ensures DraftSent(rows, id) && UniqueKeys(rows)
  {
    HasKeyIff(rows, PaymentDraftKey(id));
    DraftSentIff(rows, id);
  }

  lemma HoldsTable(sys: System)
    requires MessagesHold(sys)
    ensures TableHolds(sys.outbox)
  {
  }

  lemma SentExactly(rows: seq<Message>, id: Id, suppliers: seq<AgentId>, winner: AgentId, documents: seq<Document>,
      n: Id)
    requires TableHolds(rows) && RowsBelow(rows, n) && DistinctDocuments(documents)
    requires forall d :: d in documents ==> d.documentId >= n
    ensures var after := Publish(AppendAll(rows, DealMessages(id, suppliers, winner, documents)), id);
            && UniqueKeys(after) && DraftSent(after, id)
            && Message(id, "payment-adapter", PaymentDraftMessage, PaymentDraftKey(id), Published, 1) in after
            && (forall d :: d in documents ==>
                  Message(id, d.source, DocumentMessage, DocumentKey(id, d.documentId), Published, 1) in after)
            && (forall m: Message :: m.aggregateId == id ==>
                  (m in after <==>
                    && m.status == Published && m.attempts == 1
                    && (Owed(m, id, suppliers, winner, documents) || WasStored(rows, m))))
  {
    hide TableHolds, Owed, WasStored, DealMessages, AppendAll, Publish, RowsBelow, DraftSent, DistinctDocuments;
    var after := Publish(AppendAll(rows, DealMessages(id, suppliers, winner, documents)), id);
    forall m: Message | m.aggregateId == id
      ensures m in after <==>
                && m.status == Published && m.attempts == 1
                && (Owed(m, id, suppliers, winner, documents) || WasStored(rows, m))
    {
      SignedMessages(rows, id, suppliers, winner, documents, n, m);
    }
    PublishedTable(rows, id, suppliers, winner, documents);
    OwedToOthers(id, suppliers, winner, documents);
    DraftIsSent(after, id);
  }

  /** What every accepted, undisturbed signature sends, in every reachable state, whatever was signed or sent for
      the deal before. The record gets three documents with the next unused ids, from the winner's exchange. The
      outbox then holds exactly one payment draft message of the deal, to "payment-adapter", and exactly one
      message per document of the record, to its source, each published at the one attempt. Every other message
      of the deal is the winner's award, a rejection of another contacted supplier, or was stored before; all are
      published. */
  lemma SignatureSends(c: Config, sys: System, id: Id, request: SignatureRequest, now: Time, kept: seq<Event>)
    requires Reachable(c, sys) && c.minimumQuotes >= 1 && sys.op.None? && id in sys.deals
    requires StartSignature(id, sys.deals[id], request, now).Signs?
    ensures var winner, n := StartSignature(id, sys.deals[id], request, now).quote.supplierId, sys.trust.nextId;
            var after := Execute(c, sys, SignSteps(id, request, now, kept));
            && id in after.deals && var documents := after.deals[id].documents;
            && documents == [
                 Document(n, "mock-edo:" + winner), Document(n + 1, "mock-edo:" + winner),
                 Document(n + 2, "mock-edo:" + winner)]
            && UniqueKeys(after.outbox) && DraftSent(after.outbox, id)
            && Message(id, "payment-adapter", PaymentDraftMessage, PaymentDraftKey(id), Published, 1) in after.outbox
            && (forall d :: d in documents ==>
                  Message(id, d.source, DocumentMessage, DocumentKey(id, d.documentId), Published, 1) in after.outbox)
            && (forall m: Message :: m.aggregateId == id ==>
                  (m in after.outbox <==>
                    && m.status == Published && m.attempts == 1
                    && (Owed(m, id, sys.deals[id].supplierIds, winner, documents) || WasStored(sys.outbox, m))))
  {
    hide Invariant, Reachable, StartSignature, SignedRecord, Next, Execute, TableHolds, Owed, WasStored, DealMessages,
        AppendAll, Publish, RowsBelow, DraftSent, MessagesHold, VerdictsHold, UniqueKeys, DistinctDocuments;
    ReachableVerdicts(c, sys);
    HoldsTable(sys);
    ReachableDrawn(c, sys);
    SignatureState(id, sys.deals[id], request, now);
    SignatureCompletes(c, sys, id, request, now, kept);
    SignStepsAre(c, sys, id, request, now, kept);
    var winner := StartSignature(id, sys.deals[id], request, now).quote.supplierId;
    var documents := Execute(c, sys, SignSteps(id, request, now, kept)).deals[id].documents;
    SignedDocuments(id, sys.deals[id], request, sys.trust.nextId, now);
    SentExactly(sys.outbox, id, sys.deals[id].supplierIds, winner, documents, sys.trust.nextId);
  }
}
