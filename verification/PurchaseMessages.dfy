/** The outbox over whole runs: how far the messages of a deal that nobody took up early have come. */
module PurchaseMessages {
  import opened Wrappers
  import opened Domain
  import opened TrustService
  import opened DealService
  import opened Outbox
  import opened PurchaseMachine
  import opened PurchaseInvariant
  import opened PurchaseRuns
  import opened PurchaseTheorems

  ghost predicate TableHolds(rows: seq<Message>) {
    UniqueKeys(rows) && KeysMatch(rows) && AttemptsMatch(rows)
  }

  ghost predicate Absent(rows: seq<Message>, id: Id) {
    forall i :: 0 <= i < |rows| ==> rows[i].aggregateId != id
  }

  ghost predicate AllPublished(rows: seq<Message>, id: Id) {
    forall i :: 0 <= i < |rows| && rows[i].aggregateId == id ==> rows[i].status == Published
  }

  ghost predicate SentFor(rows: seq<Message>, id: Id, suppliers: seq<AgentId>, winner: AgentId) {
    forall s :: (HasKey(rows, AwardKey(id, s)) <==> s == winner)
        && (HasKey(rows, RejectionKey(id, s)) <==> s in suppliers && s != winner)
  }

  /** The messages of the deal are those it owes, each once, all in this status. */
  ghost predicate Told(rows: seq<Message>, id: Id, suppliers: seq<AgentId>, winner: AgentId, documents: seq<Document>,
      status: OutboxStatus)
  {
    forall m: Message :: m.aggregateId == id ==>
      (m in rows <==> Owed(m, id, suppliers, winner, documents) && m.status == status
                      && m.attempts == if status == Published then 1 else 0)
  }

  predicate HasWinner(deal: Deal) {
    deal.selectedQuoteId.Some? && FindQuote(deal.quotes, deal.selectedQuoteId.value).Some?
  }

  function WinnerOf(deal: Deal): AgentId
    requires HasWinner(deal)
  {
    FindQuote(deal.quotes, deal.selectedQuoteId.value).value.supplierId
  }

  ghost predicate ToldOf(rows: seq<Message>, id: Id, deal: Deal, status: OutboxStatus)
    requires HasWinner(deal)
  {
    Told(rows, id, deal.supplierIds, WinnerOf(deal), deal.documents, status)
  }

  /** How far the messages of a deal have come; unknown for a deal that was taken up early. */
  datatype Delivery = NotSent | SentNotPublished | AllSent | Unknown

  function DeliveryOf(sys: System, id: Id): Delivery {
    if id !in sys.deals then NotSent
    else if id in sys.early then Unknown
    else if sys.deals[id].status != Completed then NotSent
    else
      match OpOn(sys.op, id)
      case Some(op) => if op.Messaging? then NotSent else SentNotPublished
      case None => if id in sys.unsent then NotSent else if id in sys.unpublished then SentNotPublished else AllSent
  }

  ghost predicate DeliveryHolds(rows: seq<Message>, id: Id, deal: Deal, delivery: Delivery) {
    match delivery
    case NotSent => Absent(rows, id)
    case SentNotPublished => HasWinner(deal) && ToldOf(rows, id, deal, Pending)
    case AllSent => HasWinner(deal) && ToldOf(rows, id, deal, Published)
    case Unknown => true
  }

  ghost predicate MessagesHold(sys: System) {
    && TableHolds(sys.outbox)
    && (forall id :: id !in sys.deals ==> Absent(sys.outbox, id))
    && (forall id :: id in sys.deals ==> DeliveryHolds(sys.outbox, id, sys.deals[id], DeliveryOf(sys, id)))
  }

  /******* Steps that leave the outbox alone *******/

  predicate TouchesOutbox(step: Step) {
    step.AppendMessages? || step.PublishMessages?
  }

  lemma CalmAt(c: Config, sys: System, id: Id)
    requires Invariant(c, sys) && id in sys.deals && id !in sys.early
    ensures Calm(CellOf(sys, id))
    ensures Ordered(sys.deals[id].status) ==>
        RecordsPurchase(c.setup, sys.tasks[id], sys.deals[id], CellOf(sys, id).cached)
  {
    hide TaskHolds, CacheHolds, OpHolds, Intact, NoPurchase, Made;
    assert CellHolds(c, sys.trust.rows, id, CellOf(sys, id));
  }

  ghost predicate Stays(sys: System, after: System, id: Id) {
    || DeliveryOf(after, id) == Unknown
    || (&& DeliveryOf(after, id) == DeliveryOf(sys, id)
        && (DeliveryOf(sys, id) != NotSent ==> id in sys.deals && after.deals[id] == sys.deals[id]))
  }

  /** A task rewrites a record only while it is running, and never to a completed one. */
  ghost predicate TaskShaped(sys: System, after: System, id: Id)
    requires KeysHold(sys) && id in sys.deals
  {
    && after.op == sys.op && after.early == sys.early && after.unsent == sys.unsent
    && after.unpublished == sys.unpublished && id in after.deals
    && (after.deals[id] == sys.deals[id]
        || (sys.tasks[id].Running? && !IsOver(sys.tasks[id]) && after.deals[id].status != Completed))
  }

  lemma TaskStays(c: Config, sys: System, after: System, id: Id)
    requires Invariant(c, sys) && (id in sys.deals ==> TaskShaped(sys, after, id))
        && (id !in sys.deals ==> id !in after.deals)
    ensures Stays(sys, after, id)
  {
    hide CellsHold, TrustInvariant, AnswersHold, FlightHolds, RecordsPurchase;
    if id in sys.deals && id !in sys.early { CalmAt(c, sys, id); }
  }

  lemma TaskPutStays(c: Config, sys: System, dealId: Id, now: Time, kept: seq<Event>, id: Id)
    requires Invariant(c, sys)
    ensures Stays(sys, TaskPuts(c, sys, dealId, now, kept), id)
  {
    hide CellsHold, TrustInvariant, AnswersHold, FlightHolds, PreviewSnapshot;
    if AtWork(sys, id) { PutStatus(c, sys, id); }
    TaskStays(c, sys, TaskPuts(c, sys, dealId, now, kept), id);
  }

  lemma PutStatus(c: Config, sys: System, id: Id)
    requires Invariant(c, sys) && AtWork(sys, id)
    ensures sys.tasks[id].ws.status != Completed && sys.tasks[id].draft.status != Completed
  {
    hide RecordHolds, CacheHolds, OpHolds, Intact, Calm, Made;
    assert CellHolds(c, sys.trust.rows, id, CellOf(sys, id));
  }

  lemma SubmitStays(sys: System, intent: Intent, mandate: Mandate, now: Time, id: Id)
    requires sys.trust.nextId !in sys.deals
    ensures Stays(sys, Submitted(sys, intent, mandate, now), id)
  {
  }

  /** Taking the lock for a deal that is not completed. */
  lemma LockStays(sys: System, op: Op, n: nat, id: Id)
    requires sys.op.None? && op.Subject() in sys.deals && sys.deals[op.Subject()].status != Completed
    ensures Stays(sys, Locked(sys, op).(trust := sys.trust.(nextId := sys.trust.nextId + n)), id)
  {
  }

  lemma ApproveStays(c: Config, sys: System, step: Step, id: Id)
    requires step.BeginApprove?
    ensures Stays(sys, ApproveBegun(c, sys, step.dealId, step.approval, step.now), id)
  {
    hide BuildSnapshot;
    if sys.op.None? && step.dealId in sys.deals {
      var start := StartApproval(c.setup, step.dealId, sys.deals[step.dealId], step.approval, step.now);
      if start.Calls? { LockStays(sys, Purchasing(step.approval, Entered(start.call)), 0, id); }
    }
  }

  lemma DecideStays(sys: System, step: Step, id: Id)
    requires step.BeginDecide? && (step.dealId in sys.deals ==> sys.deals[step.dealId].dealId == step.dealId)
    ensures Stays(sys, DecideBegun(sys, step.dealId, step.approval, step.now), id)
  {
    if sys.op.None? && step.dealId in sys.deals && step.approval.kind != Approve {
      var decided := DecidedRecord(sys.deals[step.dealId], step.approval, step.now);
      if decided.Ok? { LockStays(sys, Deciding(decided.value), 0, id); }
    }
  }

  lemma SignStays(sys: System, step: Step, id: Id)
    requires step.BeginSign? && (step.dealId in sys.deals ==> sys.deals[step.dealId].dealId == step.dealId)
    ensures Stays(sys, SignBegun(sys, step.dealId, step.request, step.now), id)
  {
    hide LifecycleEvents;
    if sys.op.None? && step.dealId in sys.deals {
      var deal := sys.deals[step.dealId];
      var start := StartSignature(step.dealId, deal, step.request, step.now);
      if start.Signs? {
        LockStays(sys, Signing(SignedRecord(deal, step.request, start.quote, sys.trust.nextId, step.now), start.quote),
            3, id);
      }
    }
  }

  lemma TrustStays(c: Config, sys: System, now: Time, id: Id)
    requires Invariant(c, sys)
    ensures Stays(sys, TrustMoved(c, sys, now), id)
  {
    hide CellsHold, TrustInvariant, AnswersHold, FlightHolds, Advance, RecordsPurchase;
    if sys.op.Some? && sys.op.value.Purchasing? {
      StageFrame(c, sys.trust, sys.op.value.flight, now);
      if id in sys.deals && id !in sys.early { CalmAt(c, sys, id); }
    }
  }

  lemma OpPutStays(c: Config, sys: System, now: Time, kept: seq<Event>, id: Id)
    requires Invariant(c, sys)
    ensures Stays(sys, OpPuts(sys, now, kept), id)
  {
    hide CellsHold, TrustInvariant, AnswersHold, FlightHolds, RecordsPurchase, ApprovalEvents;
    if id in sys.deals && id !in sys.early && sys.op.Some? && sys.op.value.Subject() == id {
      CalmAt(c, sys, id);
      OpRecord(c, sys, id);
    }
  }

  /** What a human step is about to put, and what it is about to send. */
  lemma OpRecord(c: Config, sys: System, id: Id)
    requires Invariant(c, sys) && id in sys.deals && sys.op.Some? && sys.op.value.Subject() == id
    ensures sys.op.value.Deciding? ==> sys.op.value.updated.status != Completed
    ensures sys.op.value.Signing? ==> sys.op.value.updated.status == Completed
    ensures sys.op.value.Messaging? ==>
              var deal, quote := sys.op.value.deal, sys.op.value.quote;
              && HasWinner(deal) && WinnerOf(deal) == quote.supplierId && DistinctDocuments(deal.documents)
              && MessagesOf(deal, quote) == DealMessages(id, deal.supplierIds, quote.supplierId, deal.documents)
  {
    hide TaskHolds, CacheHolds, RecordHolds, Intact, Calm, Made, DealMessages, DistinctDocuments, TrustInvariant;
    hide AnswersHold, FlightHolds;
    assert CellHolds(c, sys.trust.rows, id, CellOf(sys, id));
    assert OpHolds(c.setup, sys.trust.rows, CellOf(sys, id));
  }

  lemma FailStays(c: Config, sys: System, id: Id)
    requires Invariant(c, sys)
    ensures Stays(sys, OpFailed(sys), id)
  {
    hide CellsHold, TrustInvariant, AnswersHold, FlightHolds, RecordsPurchase, AtWork;
    if id in sys.deals && id !in sys.early { CalmAt(c, sys, id); }
  }

  lemma OutboxRests(c: Config, sys: System, step: Step)
    requires !(step.AppendMessages? && sys.op.Some? && sys.op.value.Messaging?)
    requires !(step.PublishMessages? && sys.op.Some? && sys.op.value.Publishing?)
    ensures Next(c, sys, step).outbox == sys.outbox
  {
    hide StartApproval, DecidedRecord, StartSignature, RecordFromState, Advance, NodeDone;
  }

  lemma StepStays(c: Config, sys: System, step: Step, id: Id)
    requires Invariant(c, sys) && !TouchesOutbox(step)
    ensures Stays(sys, Next(c, sys, step), id) && Next(c, sys, step).outbox == sys.outbox
  {
    hide CellsHold, TrustInvariant, AnswersHold, FlightHolds, Stays, RecordFromState, NodeDone;
    hide ApproveBegun, DecideBegun, SignBegun, TrustMoved, OpPuts, OpFailed;
    OutboxRests(c, sys, step);
    if (step.BeginDecide? || step.BeginSign?) && step.dealId in sys.deals { IdHolds(c, sys, step.dealId); }
    match step {
      case Submit(intent, mandate, now) => SubmitStays(sys, intent, mandate, now, id);
      case StartTask(_) => TaskStays(c, sys, Next(c, sys, step), id);
      case TaskNode(_, _) => TaskStays(c, sys, Next(c, sys, step), id);
      case TaskPut(dealId, now, kept) => TaskPutStays(c, sys, dealId, now, kept, id);
      case TaskRaises(_) => TaskStays(c, sys, Next(c, sys, step), id);
      case TaskPutFails(_) => TaskStays(c, sys, Next(c, sys, step), id);
      case BeginApprove(_, _, _) => ApproveStays(c, sys, step, id);
      case TrustStage(now) => TrustStays(c, sys, now, id);
      case BeginDecide(_, _, _) => DecideStays(sys, step, id);
      case BeginSign(_, _, _) => SignStays(sys, step, id);
      case OpPut(now, kept) => OpPutStays(c, sys, now, kept, id);
      case OpFails => FailStays(c, sys, id);
      case AppendMessages =>
      case PublishMessages =>
    }
  }

  lemma QuietStepKeeps(c: Config, sys: System, step: Step)
    requires Invariant(c, sys) && MessagesHold(sys) && !TouchesOutbox(step)
    ensures MessagesHold(Next(c, sys, step))
  {
    hide Invariant, Next;
    var after := Next(c, sys, step);
    forall id: Id | id !in after.deals ensures Absent(after.outbox, id) {
      StepStays(c, sys, step, id);
      assert DeliveryOf(sys, id) == NotSent;
    }
    forall id: Id | id in after.deals ensures DeliveryHolds(after.outbox, id, after.deals[id], DeliveryOf(after, id)) {
      StepStays(c, sys, step, id);
    }
    StepStays(c, sys, step, 0);
  }

  /******* Appending and publishing *******/

  lemma AppendsFor(rows: seq<Message>, id: Id, suppliers: seq<AgentId>, winner: AgentId, documents: seq<Document>)
    requires TableHolds(rows)
    ensures var after := AppendAll(rows, DealMessages(id, suppliers, winner, documents));
            && TableHolds(after)
            && (forall other :: other != id ==>
                  && (Absent(rows, other) ==> Absent(after, other))
                  && (AllPublished(rows, other) ==> AllPublished(after, other)))
  {
    hide DealMessages;
    var messages := DealMessages(id, suppliers, winner, documents);
    var after := AppendAll(rows, messages);
    DealMessagesMatch(id, suppliers, winner, documents);
    AppendConserves(rows, messages);
    AppendKeepsAttempts(rows, messages);
    KeysMatchAppend(rows, messages);
    forall i | 0 <= i < |after| ensures after[i] in rows || after[i].aggregateId == id {
      assert after[i] in after;
      DealMessagesExact(id, suppliers, winner, documents, after[i]);
    }
  }

  /** Among the messages a deal owes, the key tells which one it is. */
  lemma OwedByKey(id: Id, suppliers: seq<AgentId>, winner: AgentId, documents: seq<Document>, m: Message, n: Message)
    requires DistinctDocuments(documents) && m.key == n.key
    requires Owed(m, id, suppliers, winner, documents) && Owed(n, id, suppliers, winner, documents)
    ensures m.recipient == n.recipient && m.messageType == n.messageType
  {
    if m.messageType.DocumentMessage? {
      var d :| d in documents && m.recipient == d.source && m.key == DocumentKey(id, d.documentId);
      var e :| e in documents && n.recipient == e.source && n.key == DocumentKey(id, e.documentId);
    }
  }

  /** A deal that has no message yet gets exactly those it owes. */
  lemma AppendTells(rows: seq<Message>, id: Id, suppliers: seq<AgentId>, winner: AgentId, documents: seq<Document>)
    requires TableHolds(rows) && Absent(rows, id) && DistinctDocuments(documents)
    ensures Told(AppendAll(rows, DealMessages(id, suppliers, winner, documents)), id, suppliers, winner, documents,
                 Pending)
  {
    hide DealMessages, AppendAll, Owed, HasKey;
    var messages := DealMessages(id, suppliers, winner, documents);
    var after := AppendAll(rows, messages);
    AppendConserves(rows, messages);
    forall m: Message | m.aggregateId == id
      ensures m in after <==> Owed(m, id, suppliers, winner, documents) && m.status == Pending && m.attempts == 0
    {
      DealMessagesExact(id, suppliers, winner, documents, m);
      if m in messages {
        HasKeyIff(messages, m.key);
        HasKeyIff(after, m.key);
        var r :| r in after && r.key == m.key;
        AppendedRow(rows, id, suppliers, winner, documents, m, r);
      }
    }
  }

  lemma KeyOfOther(rows: seq<Message>, id: Id, r: Message)
    requires KeysMatch(rows) && Absent(rows, id) && r in rows
    ensures r.key.dealId != id
  {
    var i :| 0 <= i < |rows| && rows[i] == r;
    assert KeyMatches(rows[i]);
  }

  lemma AppendedRow(rows: seq<Message>, id: Id, suppliers: seq<AgentId>, winner: AgentId, documents: seq<Document>,
      m: Message, r: Message)
    requires TableHolds(rows) && Absent(rows, id) && DistinctDocuments(documents) && r.key == m.key
    requires m in DealMessages(id, suppliers, winner, documents)
    requires r in rows || r in DealMessages(id, suppliers, winner, documents)
    ensures r == m
  {
    hide DealMessages;
    DealMessagesExact(id, suppliers, winner, documents, m);
    DealMessagesExact(id, suppliers, winner, documents, r);
    if r in rows {
      KeyOfOther(rows, id, r);
    } else {
      OwedByKey(id, suppliers, winner, documents, m, r);
    }
  }

  lemma PublishTells(rows: seq<Message>, id: Id, suppliers: seq<AgentId>, winner: AgentId, documents: seq<Document>)
    requires UniqueKeys(rows) && AttemptsMatch(rows) && Told(rows, id, suppliers, winner, documents, Pending)
    ensures Told(Publish(rows, id), id, suppliers, winner, documents, Published)
  {
    hide Publish;
    PublishConserves(rows, id);
    var after := Publish(rows, id);
    forall m: Message | m.aggregateId == id
      ensures m in after <==> Owed(m, id, suppliers, winner, documents) && m.status == Published && m.attempts == 1
    {
      var before := m.(status := Pending, attempts := 0);
      assert Owed(m, id, suppliers, winner, documents) == Owed(before, id, suppliers, winner, documents);
      if m in after {
        var i :| 0 <= i < |after| && after[i] == m;
        assert rows[i] in rows;
      } else if before in rows {
        var i :| 0 <= i < |rows| && rows[i] == before;
        assert after[i] in after;
      }
    }
  }

  /** Nothing is added to the messages of the deal, and nothing about them changes. */
  ghost predicate SameMessages(rows: seq<Message>, after: seq<Message>, id: Id) {
    forall m: Message :: m.aggregateId == id ==> (m in after <==> m in rows)
  }

  lemma AppendForOthersOnly(rows: seq<Message>, id: Id, suppliers: seq<AgentId>, winner: AgentId,
                            documents: seq<Document>, other: Id)
    requires UniqueKeys(rows) && other != id
    ensures SameMessages(rows, AppendAll(rows, DealMessages(id, suppliers, winner, documents)), other)
  {
    hide DealMessages, AppendAll;
    AppendConserves(rows, DealMessages(id, suppliers, winner, documents));
    forall m: Message | m.aggregateId == other
      ensures m in AppendAll(rows, DealMessages(id, suppliers, winner, documents)) <==> m in rows
    {
      DealMessagesExact(id, suppliers, winner, documents, m);
    }
  }

  lemma PublishForOthersOnly(rows: seq<Message>, id: Id, other: Id)
    requires UniqueKeys(rows) && AttemptsMatch(rows) && other != id
    ensures SameMessages(rows, Publish(rows, id), other)
  {
    hide Publish;
    PublishConserves(rows, id);
    var after := Publish(rows, id);
    forall m: Message | m.aggregateId == other ensures m in after <==> m in rows {
      if m in rows {
        var i :| 0 <= i < |rows| && rows[i] == m;
        assert after[i] == m;
      }
    }
  }

  lemma AbsentStays(rows: seq<Message>, after: seq<Message>, id: Id)
    requires Absent(rows, id) && SameMessages(rows, after, id)
    ensures Absent(after, id)
  {
    forall i | 0 <= i < |after| ensures after[i].aggregateId != id {
      assert after[i] in after;
    }
  }

  lemma SameDelivery(rows: seq<Message>, after: seq<Message>, id: Id, deal: Deal, delivery: Delivery)
    requires DeliveryHolds(rows, id, deal, delivery) && SameMessages(rows, after, id)
    ensures DeliveryHolds(after, id, deal, delivery)
  {
    hide Owed, Absent;
    if delivery.NotSent? { AbsentStays(rows, after, id); }
  }

  lemma NoOwnKeys(rows: seq<Message>, id: Id, s: AgentId)
    requires KeysMatch(rows) && Absent(rows, id)
    ensures !HasKey(rows, AwardKey(id, s)) && !HasKey(rows, RejectionKey(id, s))
  {
    forall i | 0 <= i < |rows| ensures rows[i].key != AwardKey(id, s) && rows[i].key != RejectionKey(id, s) {
      assert KeyMatches(rows[i]);
    }
  }

  lemma AppendKeeps(c: Config, sys: System)
    requires Invariant(c, sys) && MessagesHold(sys) && sys.op.Some? && sys.op.value.Messaging?
    ensures MessagesHold(MessagesAppended(sys))
  {
    hide CellsHold, TrustInvariant, AnswersHold, FlightHolds, RecordsPurchase, AppendAll, DealMessages;
    hide TableHolds, Told, Absent;
    var deal, quote, after := sys.op.value.deal, sys.op.value.quote, MessagesAppended(sys);
    var id := deal.dealId;
    OpRecord(c, sys, id);
    AppendsFor(sys.outbox, id, deal.supplierIds, quote.supplierId, deal.documents);
    if id !in sys.early { CalmAt(c, sys, id); }
    forall other | other in after.deals
      ensures DeliveryHolds(after.outbox, other, after.deals[other], DeliveryOf(after, other))
    {
      assert DeliveryHolds(sys.outbox, other, sys.deals[other], DeliveryOf(sys, other));
      if other != id {
        assert DeliveryOf(after, other) == DeliveryOf(sys, other);
        TableUnique(sys.outbox);
        AppendForOthersOnly(sys.outbox, id, deal.supplierIds, quote.supplierId, deal.documents, other);
        SameDelivery(sys.outbox, after.outbox, other, sys.deals[other], DeliveryOf(sys, other));
      } else if id !in sys.early {
        AppendTells(sys.outbox, id, deal.supplierIds, quote.supplierId, deal.documents);
      }
    }
  }

  lemma PublishFrame(rows: seq<Message>, id: Id)
    requires TableHolds(rows)
    ensures TableHolds(Publish(rows, id)) && AllPublished(Publish(rows, id), id)
    ensures forall k :: HasKey(Publish(rows, id), k) <==> HasKey(rows, k)
    ensures forall other :: Absent(Publish(rows, id), other) <==> Absent(rows, other)
    ensures forall other :: AllPublished(rows, other) ==> AllPublished(Publish(rows, id), other)
  {
    var after := Publish(rows, id);
    PublishConserves(rows, id);
    forall i | 0 <= i < |rows|
      ensures after[i].key == rows[i].key && after[i].aggregateId == rows[i].aggregateId && KeyMatches(after[i])
    {
      assert KeyMatches(rows[i]);
    }
    forall k ensures HasKey(after, k) <==> HasKey(rows, k) {
      if HasKey(rows, k) {
        var i :| 0 <= i < |rows| && rows[i].key == k;
        assert after[i].key == k;
      }
    }
    forall other ensures Absent(after, other) <==> Absent(rows, other) {
      if !Absent(rows, other) {
        var i :| 0 <= i < |rows| && rows[i].aggregateId == other;
        assert after[i].aggregateId == other;
      }
    }
  }

  lemma TableUnique(rows: seq<Message>)
    requires TableHolds(rows)
    ensures UniqueKeys(rows) && AttemptsMatch(rows)
  {
  }

  lemma PublishKeeps(c: Config, sys: System)
    requires Invariant(c, sys) && MessagesHold(sys) && sys.op.Some? && sys.op.value.Publishing?
    ensures MessagesHold(MessagesPublished(sys))
  {
    hide CellsHold, TrustInvariant, AnswersHold, FlightHolds, RecordsPurchase, TableHolds, Publish, Absent, Told;
    var id, after := sys.op.value.dealId, MessagesPublished(sys);
    TableUnique(sys.outbox);
    PublishFrame(sys.outbox, id);
    if id !in sys.early { CalmAt(c, sys, id); }
    forall other | other in after.deals
      ensures DeliveryHolds(after.outbox, other, after.deals[other], DeliveryOf(after, other))
    {
      assert DeliveryHolds(sys.outbox, other, sys.deals[other], DeliveryOf(sys, other));
      if other != id {
        assert DeliveryOf(after, other) == DeliveryOf(sys, other);
        PublishForOthersOnly(sys.outbox, id, other);
        SameDelivery(sys.outbox, after.outbox, other, sys.deals[other], DeliveryOf(sys, other));
      } else if id !in sys.early {
        PublishTells(sys.outbox, id, sys.deals[id].supplierIds, WinnerOf(sys.deals[id]), sys.deals[id].documents);
      }
    }
  }

  /******* Every run *******/

  lemma MessagesKept(c: Config, sys: System, step: Step)
    requires Invariant(c, sys) && MessagesHold(sys)
    ensures MessagesHold(Next(c, sys, step))
  {
    hide Invariant, MessagesHold;
    if step.AppendMessages? && sys.op.Some? && sys.op.value.Messaging? {
      AppendKeeps(c, sys);
    } else if step.PublishMessages? && sys.op.Some? && sys.op.value.Publishing? {
      PublishKeeps(c, sys);
    } else if !TouchesOutbox(step) {
      QuietStepKeeps(c, sys, step);
    }
  }

  lemma {:induction false} ExecuteKeepsMessages(c: Config, sys: System, steps: seq<Step>)
    requires Invariant(c, sys) && MessagesHold(sys) && c.minimumQuotes >= 1
    ensures MessagesHold(Execute(c, sys, steps))
    decreases |steps|
  {
    hide Invariant, MessagesHold, Next;
    if steps != [] {
      MessagesKept(c, sys, steps[0]);
      NextKeeps(c, sys, steps[0]);
      ExecuteKeepsMessages(c, Next(c, sys, steps[0]), steps[1..]);
    }
  }

  lemma ReachableMessages(c: Config, sys: System)
    requires Reachable(c, sys) && c.minimumQuotes >= 1
    ensures Invariant(c, sys) && MessagesHold(sys)
  {
    hide Invariant;
    EmptyInvariant(c);
    var steps: seq<Step> :| Execute(c, EMPTY_SYSTEM, steps) == sys;
    ExecuteKeeps(c, EMPTY_SYSTEM, steps);
    assert MessagesHold(EMPTY_SYSTEM);
    ExecuteKeepsMessages(c, EMPTY_SYSTEM, steps);
  }

  /******* What the outbox of a deal holds *******/

  /** The winner is due an award, every other contacted supplier a rejection. */
  function Due(deal: Deal, s: AgentId): nat
    requires HasWinner(deal)
  {
    if s in deal.supplierIds || s == WinnerOf(deal) then 1 else 0
  }

  ghost predicate AllHeard(rows: seq<Message>, id: Id, deal: Deal)
    requires HasWinner(deal)
  {
    forall s :: Verdicts(rows, id, s) == Due(deal, s) && (HasKey(rows, AwardKey(id, s)) <==> s == WinnerOf(deal))
  }

  /** Messages that are exactly those owed give every supplier its verdict. */
  lemma ToldIsSent(rows: seq<Message>, id: Id, suppliers: seq<AgentId>, winner: AgentId, documents: seq<Document>,
      status: OutboxStatus)
    requires TableHolds(rows) && Told(rows, id, suppliers, winner, documents, status)
    ensures SentFor(rows, id, suppliers, winner)
    ensures status == Published ==> AllPublished(rows, id)
  {
    forall i | 0 <= i < |rows|
      ensures KeyMatches(rows[i])
          && (rows[i].aggregateId == id ==>
                Owed(rows[i], id, suppliers, winner, documents) && rows[i].status == status)
    {
      assert rows[i] in rows;
    }
    var attempts: nat := if status == Published then 1 else 0;
    forall s ensures (HasKey(rows, AwardKey(id, s)) <==> s == winner)
                     && (HasKey(rows, RejectionKey(id, s)) <==> s in suppliers && s != winner)
    {
      var award := Message(id, s, AwardMessage, AwardKey(id, s), status, attempts);
      var rejection := Message(id, s, RejectionMessage, RejectionKey(id, s), status, attempts);
      HasKeyIff(rows, award.key);
      HasKeyIff(rows, rejection.key);
      assert s == winner ==> award in rows;
      assert s in suppliers && s != winner ==> rejection in rows;
    }
  }

  lemma SentIsHeard(rows: seq<Message>, id: Id, deal: Deal)
    requires TableHolds(rows) && HasWinner(deal) && SentFor(rows, id, deal.supplierIds, WinnerOf(deal))
    ensures AllHeard(rows, id, deal)
  {
    forall s ensures Verdicts(rows, id, s) == Due(deal, s) {
      VerdictsByKeys(rows, id, s);
    }
  }

  lemma AbsentIsUnheard(rows: seq<Message>, id: Id, deal: Deal)
    requires Absent(rows, id) && HasWinner(deal)
    ensures !AllHeard(rows, id, deal)
  {
    NoVerdicts(rows, id, WinnerOf(deal));
    assert Verdicts(rows, id, WinnerOf(deal)) != Due(deal, WinnerOf(deal));
  }

  /** In every reachable state the outbox keys are unique and a message has one attempt exactly if it is
      published; a deal that nobody took up early and that is not completed has sent nothing. */
  lemma OutboxHolds(c: Config, sys: System, id: Id)
    requires Reachable(c, sys) && c.minimumQuotes >= 1
    ensures UniqueKeys(sys.outbox) && AttemptsMatch(sys.outbox)
    ensures id in sys.deals && id !in sys.early && sys.deals[id].status != Completed ==> Absent(sys.outbox, id)
  {
    hide Invariant;
    ReachableMessages(c, sys);
    if id in sys.deals {
      assert DeliveryHolds(sys.outbox, id, sys.deals[id], DeliveryOf(sys, id));
    }
  }

  lemma CompletedHasWinner(c: Config, sys: System, id: Id)
    requires Invariant(c, sys) && id in sys.deals && sys.deals[id].status == Completed
    ensures HasWinner(sys.deals[id])
  {
    hide CellHolds, TrustInvariant, AnswersHold, FlightHolds;
    ReadyToSign(c, sys, id);
  }
}
