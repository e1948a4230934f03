/** What the outbox says to the suppliers of any deal, taken up early or not, over whole runs. */
module PurchaseVerdicts {
  import opened Wrappers
  import opened Domain
  import opened TrustService
  import opened DealService
  import opened Outbox
  import opened PurchaseMachine
  import opened PurchaseInvariant
  import opened PurchaseRuns
  import opened PurchaseTheorems
  import opened PurchaseMessages
  import opened StepRefinement
  import Workflow

  /** Every stored rejection went to a contacted supplier beside the award of another one, every stored award went
      with the rejections of all other contacted suppliers, and the payment draft with an award. */
  ghost predicate VerdictsFit(rows: seq<Message>, id: Id, suppliers: seq<AgentId>) {
    && (forall s :: HasKey(rows, RejectionKey(id, s)) ==>
          s in suppliers && exists w :: w != s && HasKey(rows, AwardKey(id, w)))
    && (forall w, s :: HasKey(rows, AwardKey(id, w)) && s in suppliers && s != w ==> HasKey(rows, RejectionKey(id, s)))
    && (HasKey(rows, PaymentDraftKey(id)) <==> exists w :: HasKey(rows, AwardKey(id, w)))
  }

  /** The contacted suppliers are those of the workflow's result. */
  ghost predicate VerdictsAt(sys: System, id: Id) {
    Absent(sys.outbox, id)
    || (id in sys.tasks && Delivered(sys.tasks[id]) && VerdictsFit(sys.outbox, id, sys.tasks[id].ws.supplierIds))
  }

  /** Only a publication under way, or one that failed, leaves messages pending. */
  ghost predicate PendingAt(sys: System, id: Id) {
    AllPublished(sys.outbox, id) || id in sys.unpublished || sys.op == Some(Publishing(id))
  }

  ghost predicate VerdictsHold(sys: System) {
    forall id :: VerdictsAt(sys, id) && PendingAt(sys, id)
  }

  /******* Steps that leave the outbox alone *******/

  /** The workflow's result, once delivered, is never replaced. */
  ghost predicate ResultStays(sys: System, after: System, id: Id) {
    id in sys.tasks && Delivered(sys.tasks[id]) ==>
      id in after.tasks && Delivered(after.tasks[id]) && after.tasks[id].ws == sys.tasks[id].ws
  }

  lemma StepKeepsResult(c: Config, sys: System, step: Step, id: Id)
    requires Invariant(c, sys)
    ensures ResultStays(sys, Next(c, sys, step), id)
  {
    hide Invariant, StartApproval, DecidedRecord, StartSignature, Advance;
    hide Submitted, TaskStarted, NodeRun, TaskPuts, TaskRaised, TaskEnds;
    match step {
      case Submit(intent, mandate, now) => SubmitKeepsResult(c, sys, intent, mandate, now, id);
      case StartTask(dealId) => PhasesKeepResult(c, sys, dealId, id);
      case TaskNode(dealId, inputs) => NodeKeepsResult(c, sys, dealId, inputs, id);
      case TaskPut(dealId, now, kept) => PutKeepsResult(c, sys, dealId, now, kept, id);
      case TaskRaises(dealId) => PhasesKeepResult(c, sys, dealId, id);
      case TaskPutFails(dealId) => PhasesKeepResult(c, sys, dealId, id);
      case _ =>
    }
  }

  lemma PhasesKeepResult(c: Config, sys: System, dealId: Id, id: Id)
    ensures ResultStays(sys, TaskStarted(sys, dealId), id)
    ensures ResultStays(sys, TaskRaised(sys, dealId), id)
    ensures ResultStays(sys, TaskEnds(sys, dealId), id)
  {
  }

  lemma PutKeepsResult(c: Config, sys: System, dealId: Id, now: Time, kept: seq<Event>, id: Id)
    ensures ResultStays(sys, TaskPuts(c, sys, dealId, now, kept), id)
  {
    hide RecordFromState, FailedRecord;
  }

  lemma NodeKeepsResult(c: Config, sys: System, dealId: Id, inputs: Workflow.Inputs, id: Id)
    requires Invariant(c, sys)
    ensures ResultStays(sys, NodeRun(c, sys, dealId, inputs), id)
  {
    hide TrustInvariant, AnswersHold, FlightHolds, RecordHolds, CacheHolds, OpHolds, Calm, Intact, Made, NodeDone;
    if AtWork(sys, dealId) { assert CellHolds(c, sys.trust.rows, dealId, CellOf(sys, dealId)); }
  }

  lemma SubmitKeepsResult(c: Config, sys: System, intent: Intent, mandate: Mandate, now: Time, id: Id)
    requires Invariant(c, sys)
    ensures ResultStays(sys, Submitted(sys, intent, mandate, now), id)
  {
    hide CellsHold, TrustInvariant, AnswersHold, FlightHolds;
  }

  lemma StepKeepsPending(c: Config, sys: System, step: Step, id: Id)
    requires !TouchesOutbox(step)
    ensures sys.unpublished <= Next(c, sys, step).unpublished
    ensures sys.op == Some(Publishing(id)) ==>
              Next(c, sys, step).op == sys.op || id in Next(c, sys, step).unpublished
  {
    hide StartApproval, DecidedRecord, StartSignature, RecordFromState, Advance, NodeDone;
  }

  lemma {:induction false} RunKeepsResult(c: Config, sys: System, steps: seq<Step>, id: Id)
    requires Invariant(c, sys) && c.minimumQuotes >= 1
    ensures ResultStays(sys, Execute(c, sys, steps), id)
    decreases |steps|
  {
    hide Invariant, Next;
    if steps != [] {
      StepKeepsResult(c, sys, steps[0], id);
      NextKeeps(c, sys, steps[0]);
      RunKeepsResult(c, Next(c, sys, steps[0]), steps[1..], id);
    }
  }

  lemma QuietStepKeepsVerdicts(c: Config, sys: System, step: Step, id: Id)
    requires Invariant(c, sys) && VerdictsAt(sys, id) && PendingAt(sys, id) && !TouchesOutbox(step)
    ensures VerdictsAt(Next(c, sys, step), id) && PendingAt(Next(c, sys, step), id)
  {
    hide Invariant, Next, Absent, AllPublished, VerdictsFit;
    StepStays(c, sys, step, id);
    StepKeepsResult(c, sys, step, id);
    StepKeepsPending(c, sys, step, id);
  }

  /******* Appending and publishing *******/

  lemma AppendedKeys(rows: seq<Message>, id: Id, suppliers: seq<AgentId>, winner: AgentId, documents: seq<Document>,
                     other: Id, s: AgentId)
    requires TableHolds(rows)
    ensures var after := AppendAll(rows, DealMessages(id, suppliers, winner, documents));
            && (HasKey(after, AwardKey(other, s)) <==>
                HasKey(rows, AwardKey(other, s)) || (other == id && s == winner))
            && (HasKey(after, RejectionKey(other, s)) <==>
                HasKey(rows, RejectionKey(other, s)) || (other == id && s in suppliers && s != winner))
            && (HasKey(after, PaymentDraftKey(other)) <==> HasKey(rows, PaymentDraftKey(other)) || other == id)
  {
    hide DealMessages, AppendAll;
    DealMessageKeys(id, suppliers, winner, documents, PaymentDraftKey(other));
    AppendConserves(rows, DealMessages(id, suppliers, winner, documents));
    DealMessageKeys(id, suppliers, winner, documents, AwardKey(other, s));
    DealMessageKeys(id, suppliers, winner, documents, RejectionKey(other, s));
  }

  lemma AppendFits(rows: seq<Message>, id: Id, suppliers: seq<AgentId>, winner: AgentId, documents: seq<Document>)
    requires TableHolds(rows) && (Absent(rows, id) || VerdictsFit(rows, id, suppliers))
    ensures VerdictsFit(AppendAll(rows, DealMessages(id, suppliers, winner, documents)), id, suppliers)
  {
    hide DealMessages, AppendAll, HasKey;
    var after := AppendAll(rows, DealMessages(id, suppliers, winner, documents));
    forall s
      ensures HasKey(after, AwardKey(id, s)) <==> HasKey(rows, AwardKey(id, s)) || s == winner
      ensures HasKey(after, RejectionKey(id, s)) <==>
              HasKey(rows, RejectionKey(id, s)) || (s in suppliers && s != winner)
      ensures HasKey(after, PaymentDraftKey(id))
      ensures Absent(rows, id) ==> !HasKey(rows, AwardKey(id, s)) && !HasKey(rows, RejectionKey(id, s))
    {
      AppendedKeys(rows, id, suppliers, winner, documents, id, s);
      if Absent(rows, id) { NoOwnKeys(rows, id, s); }
    }
    forall s | HasKey(after, RejectionKey(id, s))
      ensures s in suppliers && exists w :: w != s && HasKey(after, AwardKey(id, w))
    {
      if HasKey(rows, RejectionKey(id, s)) {
        var w :| w != s && HasKey(rows, AwardKey(id, w));
        assert HasKey(after, AwardKey(id, w));
      } else {
        assert HasKey(after, AwardKey(id, winner));
      }
    }
    assert HasKey(after, PaymentDraftKey(id)) && HasKey(after, AwardKey(id, winner));
  }

  lemma SameKeysFit(rows: seq<Message>, after: seq<Message>, id: Id, suppliers: seq<AgentId>)
    requires VerdictsFit(rows, id, suppliers)
    requires forall s :: HasKey(after, AwardKey(id, s)) <==> HasKey(rows, AwardKey(id, s))
    requires forall s :: HasKey(after, RejectionKey(id, s)) <==> HasKey(rows, RejectionKey(id, s))
    requires HasKey(after, PaymentDraftKey(id)) <==> HasKey(rows, PaymentDraftKey(id))
    ensures VerdictsFit(after, id, suppliers)
  {
    hide HasKey;
  }

  lemma AppendFitsOther(rows: seq<Message>, id: Id, suppliers: seq<AgentId>, winner: AgentId, documents: seq<Document>,
                        other: Id, others: seq<AgentId>)
    requires TableHolds(rows) && other != id && VerdictsFit(rows, other, others)
    ensures VerdictsFit(AppendAll(rows, DealMessages(id, suppliers, winner, documents)), other, others)
  {
    hide DealMessages, AppendAll, HasKey, VerdictsFit;
    var after := AppendAll(rows, DealMessages(id, suppliers, winner, documents));
    forall s
      ensures HasKey(after, AwardKey(other, s)) <==> HasKey(rows, AwardKey(other, s))
      ensures HasKey(after, RejectionKey(other, s)) <==> HasKey(rows, RejectionKey(other, s))
    {
      AppendedKeys(rows, id, suppliers, winner, documents, other, s);
    }
    AppendedKeys(rows, id, suppliers, winner, documents, other, winner);
    SameKeysFit(rows, after, other, others);
  }

  /** What a step of the outbox is about to send is about the workflow's result. */
  lemma SendsResult(c: Config, sys: System, id: Id)
    requires Invariant(c, sys) && sys.op.Some? && sys.op.value.Messaging? && sys.op.value.deal.dealId == id
    ensures id in sys.tasks && Delivered(sys.tasks[id])
    ensures sys.op.value.deal.supplierIds == sys.tasks[id].ws.supplierIds
  {
    hide TaskHolds, CacheHolds, RecordHolds, Intact, Calm, Made, Purchased;
    assert CellHolds(c, sys.trust.rows, id, CellOf(sys, id));
    assert OpHolds(c.setup, sys.trust.rows, CellOf(sys, id));
  }

  lemma AppendKeepsVerdicts(c: Config, sys: System, other: Id)
    requires Invariant(c, sys) && TableHolds(sys.outbox) && sys.op.Some? && sys.op.value.Messaging?
    requires VerdictsAt(sys, other) && PendingAt(sys, other)
    ensures VerdictsAt(MessagesAppended(sys), other) && PendingAt(MessagesAppended(sys), other)
  {
    hide Invariant, TableHolds, AppendAll, DealMessages, MessagesOf, Absent, AllPublished, VerdictsFit;
    var deal, quote := sys.op.value.deal, sys.op.value.quote;
    var id := deal.dealId;
    SubjectIsThere(c, sys);
    OpRecord(c, sys, id);
    SendsResult(c, sys, id);
    AppendsFor(sys.outbox, id, deal.supplierIds, quote.supplierId, deal.documents);
    if other == id {
      AppendFits(sys.outbox, id, deal.supplierIds, quote.supplierId, deal.documents);
    } else if !Absent(sys.outbox, other) {
      AppendFitsOther(sys.outbox, id, deal.supplierIds, quote.supplierId, deal.documents, other,
                      sys.tasks[other].ws.supplierIds);
    }
  }

  lemma SubjectIsThere(c: Config, sys: System)
    requires Invariant(c, sys) && sys.op.Some?
    ensures sys.op.value.Subject() in sys.deals && sys.op.value.Subject() in sys.tasks
  {
    hide CellsHold, TrustInvariant, AnswersHold, FlightHolds;
  }

  lemma PublishKeepsVerdicts(sys: System, other: Id)
    requires TableHolds(sys.outbox) && sys.op.Some? && sys.op.value.Publishing?
    requires VerdictsAt(sys, other) && PendingAt(sys, other)
    ensures VerdictsAt(MessagesPublished(sys), other) && PendingAt(MessagesPublished(sys), other)
  {
    hide TableHolds, Publish, Absent, AllPublished, VerdictsFit, HasKey;
    var after := Publish(sys.outbox, sys.op.value.dealId);
    PublishFrame(sys.outbox, sys.op.value.dealId);
    if !Absent(sys.outbox, other) {
      SameKeysFit(sys.outbox, after, other, sys.tasks[other].ws.supplierIds);
    }
  }

  /******* Every run *******/

  lemma VerdictsKept(c: Config, sys: System, step: Step)
    requires Invariant(c, sys) && TableHolds(sys.outbox) && VerdictsHold(sys)
    ensures VerdictsHold(Next(c, sys, step))
  {
    hide Invariant, TableHolds, VerdictsAt, PendingAt;
    forall id ensures VerdictsAt(Next(c, sys, step), id) && PendingAt(Next(c, sys, step), id) {
      if step.AppendMessages? && sys.op.Some? && sys.op.value.Messaging? {
        AppendKeepsVerdicts(c, sys, id);
      } else if step.PublishMessages? && sys.op.Some? && sys.op.value.Publishing? {
        PublishKeepsVerdicts(sys, id);
      } else if !TouchesOutbox(step) {
        QuietStepKeepsVerdicts(c, sys, step, id);
      }
    }
  }

  lemma {:induction false} ExecuteKeepsVerdicts(c: Config, sys: System, steps: seq<Step>)
    requires Invariant(c, sys) && MessagesHold(sys) && VerdictsHold(sys) && c.minimumQuotes >= 1
    ensures VerdictsHold(Execute(c, sys, steps))
    decreases |steps|
  {
    hide Invariant, VerdictsHold, Next, TableHolds;
    if steps != [] {
      MessagesKept(c, sys, steps[0]);
      NextKeeps(c, sys, steps[0]);
      VerdictsKept(c, sys, steps[0]);
      ExecuteKeepsVerdicts(c, Next(c, sys, steps[0]), steps[1..]);
    }
  }

  lemma EmptyVerdicts()
    ensures MessagesHold(EMPTY_SYSTEM) && VerdictsHold(EMPTY_SYSTEM)
  {
  }

  lemma ReachableVerdicts(c: Config, sys: System)
    requires Reachable(c, sys) && c.minimumQuotes >= 1
    ensures Invariant(c, sys) && MessagesHold(sys) && VerdictsHold(sys)
  {
    hide Invariant, MessagesHold;
    EmptyInvariant(c);
    ReachableMessages(c, sys);
    EmptyVerdicts();
    var steps: seq<Step> :| Execute(c, EMPTY_SYSTEM, steps) == sys;
    ExecuteKeepsVerdicts(c, EMPTY_SYSTEM, steps);
  }

  /******* Whom a completed deal told *******/

  /** The stored awards of the deal are the one to this supplier. */
  ghost predicate AwardedTo(rows: seq<Message>, id: Id, winner: AgentId) {
    forall s :: HasKey(rows, AwardKey(id, s)) <==> s == winner
  }

  lemma AwardsDecide(rows: seq<Message>, id: Id, deal: Deal)
    requires TableHolds(rows) && HasWinner(deal) && (Absent(rows, id) || VerdictsFit(rows, id, deal.supplierIds))
    ensures AllHeard(rows, id, deal) <==> AwardedTo(rows, id, WinnerOf(deal))
  {
    hide HasKey, WinnerOf, Verdicts, VerdictsFit, SentFor, TableHolds;
    if AwardedTo(rows, id, WinnerOf(deal)) {
      AwardedIsSent(rows, id, deal.supplierIds, WinnerOf(deal));
      SentIsHeard(rows, id, deal);
    }
  }

  lemma AwardedIsSent(rows: seq<Message>, id: Id, suppliers: seq<AgentId>, winner: AgentId)
    requires TableHolds(rows) && (Absent(rows, id) || VerdictsFit(rows, id, suppliers)) && AwardedTo(rows, id, winner)
    ensures SentFor(rows, id, suppliers, winner)
  {
    hide HasKey;
    assert HasKey(rows, AwardKey(id, winner));
    if Absent(rows, id) { NoOwnKeys(rows, id, winner); }
  }

  /** The payment adapter has the deal's draft: one message, to "payment-adapter", and no other of its kind. */
  ghost predicate DraftSent(rows: seq<Message>, id: Id) {
    && (exists i :: 0 <= i < |rows| && IsDraftOf(rows[i], id))
    && (forall i, j :: 0 <= i < j < |rows| ==> !(IsDraftOf(rows[i], id) && IsDraftOf(rows[j], id)))
    && (forall i :: 0 <= i < |rows| && IsDraftOf(rows[i], id) ==> rows[i].recipient == "payment-adapter")
  }

  predicate IsDraftOf(m: Message, id: Id) {
    m.aggregateId == id && m.messageType == PaymentDraftMessage
  }

  lemma DraftSentIff(rows: seq<Message>, id: Id)
    requires TableHolds(rows)
    ensures DraftSent(rows, id) <==> HasKey(rows, PaymentDraftKey(id))
  {
    forall i | 0 <= i < |rows|
      ensures IsDraftOf(rows[i], id) <==> rows[i].key == PaymentDraftKey(id)
      ensures IsDraftOf(rows[i], id) ==> rows[i].recipient == "payment-adapter"
    {
      assert KeyMatches(rows[i]);
    }
    if HasKey(rows, PaymentDraftKey(id)) {
      var i :| 0 <= i < |rows| && rows[i].key == PaymentDraftKey(id);
      assert IsDraftOf(rows[i], id);
    }
  }

  lemma NoDraftSent(rows: seq<Message>, id: Id)
    requires Absent(rows, id)
    ensures !DraftSent(rows, id)
  {
  }

  lemma DraftGoesWithAward(rows: seq<Message>, id: Id, suppliers: seq<AgentId>)
    requires TableHolds(rows) && (Absent(rows, id) || VerdictsFit(rows, id, suppliers))
    ensures DraftSent(rows, id) <==> exists w :: HasKey(rows, AwardKey(id, w))
  {
    hide HasKey, DraftSent;
    DraftSentIff(rows, id);
    if Absent(rows, id) {
      NoDraftKey(rows, id);
      forall w ensures !HasKey(rows, AwardKey(id, w)) { NoOwnKeys(rows, id, w); }
    }
  }

  lemma NoDraftKey(rows: seq<Message>, id: Id)
    requires KeysMatch(rows) && Absent(rows, id)
    ensures !HasKey(rows, PaymentDraftKey(id))
  {
    forall i | 0 <= i < |rows| ensures rows[i].key != PaymentDraftKey(id) {
      assert KeyMatches(rows[i]);
    }
  }

  /** Exactly when a completed deal told its suppliers, in every reachable state: the winner has its one
      award, every other contacted supplier its one rejection and nobody else anything, iff the stored awards
      of the deal are the winner's alone. The payment adapter has its one draft iff an award is stored. Once its
      step is over, what is stored is published unless a publication failed. For a deal that nobody took up
      early the winner's award alone is stored iff the append of its messages did not fail; its messages are then
      exactly those it owes, to the suppliers, the adapter and the sources of its documents, all published unless
      the publication failed. */
  lemma EverySupplierHearsIff(c: Config, sys: System, id: Id)
    requires Reachable(c, sys) && c.minimumQuotes >= 1 && id in sys.deals && sys.deals[id].status == Completed
    ensures HasWinner(sys.deals[id])
    ensures AllHeard(sys.outbox, id, sys.deals[id]) <==> AwardedTo(sys.outbox, id, WinnerOf(sys.deals[id]))
    ensures DraftSent(sys.outbox, id) <==> exists w :: HasKey(sys.outbox, AwardKey(id, w))
    ensures OpOn(sys.op, id).None? && id !in sys.unpublished ==> AllPublished(sys.outbox, id)
    ensures OpOn(sys.op, id).None? && id !in sys.early ==>
              && (AllHeard(sys.outbox, id, sys.deals[id]) <==> id !in sys.unsent)
              && (DraftSent(sys.outbox, id) <==> id !in sys.unsent)
              && (AllHeard(sys.outbox, id, sys.deals[id]) && AllPublished(sys.outbox, id)
                  <==> id !in sys.unsent && id !in sys.unpublished)
              && (id in sys.unsent ==> Absent(sys.outbox, id))
              && (id !in sys.unsent ==>
                    ToldOf(sys.outbox, id, sys.deals[id], if id in sys.unpublished then Pending else Published))
  {
    hide Invariant, TableHolds, AllHeard, AwardedTo, Told, AllPublished, Absent, VerdictsFit, DraftSent, HasKey;
    ReachableVerdicts(c, sys);
    CompletedHasWinner(c, sys, id);
    CompletedIsResult(c, sys, id);
    assert VerdictsAt(sys, id) && PendingAt(sys, id);
    AwardsDecide(sys.outbox, id, sys.deals[id]);
    DraftGoesWithAward(sys.outbox, id, sys.deals[id].supplierIds);
    assert DeliveryHolds(sys.outbox, id, sys.deals[id], DeliveryOf(sys, id));
    if OpOn(sys.op, id).None? && id !in sys.early {
      if id in sys.unsent {
        AbsentIsSilent(sys.outbox, id, sys.deals[id]);
      } else {
        ToldIsHeard(sys.outbox, id, sys.deals[id], if id in sys.unpublished then Pending else Published);
      }
    }
  }

  lemma AbsentIsSilent(rows: seq<Message>, id: Id, deal: Deal)
    requires TableHolds(rows) && Absent(rows, id) && HasWinner(deal)
    ensures !AllHeard(rows, id, deal) && !DraftSent(rows, id)
  {
    hide AllHeard, DraftSent;
    AbsentIsUnheard(rows, id, deal);
    NoDraftSent(rows, id);
  }

  lemma ToldIsHeard(rows: seq<Message>, id: Id, deal: Deal, status: OutboxStatus)
    requires TableHolds(rows) && HasWinner(deal) && ToldOf(rows, id, deal, status)
    ensures AllHeard(rows, id, deal) && DraftSent(rows, id)
    ensures AllPublished(rows, id) <==> status == Published
  {
    hide AllHeard, DraftSent, TableHolds;
    ToldIsSent(rows, id, deal.supplierIds, WinnerOf(deal), deal.documents, status);
    SentIsHeard(rows, id, deal);
    var m := Message(id, "payment-adapter", PaymentDraftMessage, PaymentDraftKey(id), status,
                     if status == Published then 1 else 0);
    assert Owed(m, id, deal.supplierIds, WinnerOf(deal), deal.documents);
    assert m in rows;
    HasKeyIff(rows, m.key);
    DraftSentIff(rows, id);
  }

  lemma CompletedIsResult(c: Config, sys: System, id: Id)
    requires Invariant(c, sys) && id in sys.deals && Ordered(sys.deals[id].status)
    ensures HasContent(sys.tasks[id], sys.deals[id])
  {
    hide CellHolds, TaskHolds, RecordHolds, CacheHolds, Made, Purchased;
    PartsHold(c, sys.trust.rows, id, CellOf(sys, id));
    OrderedParts(c.setup, sys.trust.rows, CellOf(sys, id));
  }

  /** Exactly when a signature tells every supplier right, decided before the call: in every reachable state,
      for every accepted signature, its four steps leave the winner with its one award, every other contacted
      supplier with its one rejection, and nobody else with anything, iff no award of the deal to another
      supplier is stored yet. What is stored of the deal is then published, and no award is taken back. */
  lemma SignatureHeardIff(c: Config, sys: System, id: Id, request: SignatureRequest, now: Time, kept: seq<Event>)
    requires Reachable(c, sys) && c.minimumQuotes >= 1 && sys.op.None? && id in sys.deals
    requires StartSignature(id, sys.deals[id], request, now).Signs?
    ensures var quote := StartSignature(id, sys.deals[id], request, now).quote;
            var after := Execute(c, sys, SignSteps(id, request, now, kept));
            && Reachable(c, after) && after.op.None? && after.tasks == sys.tasks
            && id in after.deals && after.deals[id].status == Completed
            && after.deals[id].selectedQuoteId == sys.deals[id].selectedQuoteId
            && after.deals[id].order == sys.deals[id].order && after.deals[id].mandate == sys.deals[id].mandate
            && after.deals[id].paymentDraftId == sys.deals[id].paymentDraftId
            && after.deals[id].paymentDraft == Some(sys.deals[id].paymentDraft.value.(status := Signed))
            && HasWinner(after.deals[id]) && WinnerOf(after.deals[id]) == quote.supplierId
            && (AllHeard(after.outbox, id, after.deals[id]) <==>
                forall s :: HasKey(sys.outbox, AwardKey(id, s)) ==> s == quote.supplierId)
            && AllPublished(after.outbox, id)
            && (forall s :: HasKey(after.outbox, AwardKey(id, s)) <==>
                  HasKey(sys.outbox, AwardKey(id, s)) || s == quote.supplierId)
  {
    hide Invariant, Reachable, StartSignature, SignedRecord, Next, Execute, AllHeard, AllPublished, HasKey;
    hide DealMessages, AppendAll, Publish, TableHolds;
    ReachableVerdicts(c, sys);
    SignatureState(id, sys.deals[id], request, now);
    SignatureCompletes(c, sys, id, request, now, kept);
    SignStepsAre(c, sys, id, request, now, kept);
    RunIsReachable(c, sys, SignSteps(id, request, now, kept));
    var quote := StartSignature(id, sys.deals[id], request, now).quote;
    var after := Execute(c, sys, SignSteps(id, request, now, kept));
    var signed := SignedRecord(sys.deals[id], request, quote, sys.trust.nextId, now);
    SignedIs(id, sys.deals[id], request, sys.trust.nextId, now);
    SignLeavesTasks(c, sys, id, request, now, kept);
    SentKeys(sys.outbox, id, signed.supplierIds, quote.supplierId, signed.documents);
    EverySupplierHearsIff(c, after, id);
  }

  lemma SignedIs(id: Id, deal: Deal, request: SignatureRequest, documentId: Id, now: Time)
    requires StartSignature(id, deal, request, now).Signs?
    requires deal.approvalSnapshot.Some? && deal.orderId.Some? && deal.paymentDraft.Some?
    ensures var quote := StartSignature(id, deal, request, now).quote;
            var signed := SignedRecord(deal, request, quote, documentId, now);
            && signed.status == Completed && signed.selectedQuoteId == deal.selectedQuoteId
            && signed.order == deal.order && signed.quotes == deal.quotes && signed.mandate == deal.mandate
            && signed.paymentDraftId == deal.paymentDraftId
            && signed.paymentDraft == Some(deal.paymentDraft.value.(status := Signed))
            && HasWinner(signed) && WinnerOf(signed) == quote.supplierId
  {
    hide LifecycleEvents;
  }

  lemma SignLeavesTasks(c: Config, sys: System, id: Id, request: SignatureRequest, now: Time, kept: seq<Event>)
    ensures Next(c, Next(c, Next(c, Next(c, sys, BeginSign(id, request, now)), OpPut(now, kept)), AppendMessages),
                 PublishMessages).tasks == sys.tasks
  {
    hide Next;
    var begun := Next(c, sys, BeginSign(id, request, now));
    var stored := Next(c, begun, OpPut(now, kept));
    LeavesTasks(c, sys, BeginSign(id, request, now));
    LeavesTasks(c, begun, OpPut(now, kept));
    LeavesTasks(c, stored, AppendMessages);
    LeavesTasks(c, Next(c, stored, AppendMessages), PublishMessages);
  }

  lemma LeavesTasks(c: Config, sys: System, step: Step)
    requires step.BeginSign? || step.OpPut? || step.AppendMessages? || step.PublishMessages?
    ensures Next(c, sys, step).tasks == sys.tasks
  {
    hide StartSignature, SignedRecord, ApprovedRecord;
  }

  lemma SentKeys(rows: seq<Message>, id: Id, suppliers: seq<AgentId>, winner: AgentId, documents: seq<Document>)
    requires TableHolds(rows)
    ensures var after := Publish(AppendAll(rows, DealMessages(id, suppliers, winner, documents)), id);
            && AllPublished(after, id)
            && forall s :: HasKey(after, AwardKey(id, s)) <==> HasKey(rows, AwardKey(id, s)) || s == winner
  {
    hide TableHolds, HasKey, DealMessages, AppendAll, Publish, AllPublished;
    AppendsFor(rows, id, suppliers, winner, documents);
    var appended := AppendAll(rows, DealMessages(id, suppliers, winner, documents));
    PublishFrame(appended, id);
    forall s ensures HasKey(appended, AwardKey(id, s)) <==> HasKey(rows, AwardKey(id, s)) || s == winner {
      AppendedKeys(rows, id, suppliers, winner, documents, id, s);
    }
  }

  /******* Messages that were not appended *******/

  lemma StandingIsSilent(c: Config, sys: System, step: Step, id: Id)
    requires Invariant(c, sys) && TableHolds(sys.outbox) && Standing(sys, id)
    ensures SameMessages(sys.outbox, Next(c, sys, step).outbox, id)
  {
    hide Invariant, AppendAll, DealMessages, MessagesOf, Publish, SameMessages;
    if step.AppendMessages? && sys.op.Some? && sys.op.value.Messaging? {
      var deal, quote := sys.op.value.deal, sys.op.value.quote;
      SubjectIsThere(c, sys);
      OpRecord(c, sys, deal.dealId);
      AppendForOthersOnly(sys.outbox, deal.dealId, deal.supplierIds, quote.supplierId, deal.documents, id);
    } else if step.PublishMessages? && sys.op.Some? && sys.op.value.Publishing? {
      PublishForOthersOnly(sys.outbox, sys.op.value.dealId, id);
    } else {
      OutboxRests(c, sys, step);
      SameIsSame(sys.outbox, id);
    }
  }

  lemma SameIsSame(rows: seq<Message>, id: Id)
    ensures SameMessages(rows, rows, id)
  {
  }

  lemma {:induction false} StandingStaysSilent(c: Config, sys: System, steps: seq<Step>, id: Id)
    requires Invariant(c, sys) && MessagesHold(sys) && Standing(sys, id) && c.minimumQuotes >= 1
    ensures SameMessages(sys.outbox, Execute(c, sys, steps).outbox, id)
    decreases |steps|
  {
    hide Invariant, Next, Standing, TableHolds;
    if steps != [] {
      StandingIsSilent(c, sys, steps[0], id);
      StandsThere(sys, id);
      DecisionStays(c, sys, steps[0], id);
      MessagesKept(c, sys, steps[0]);
      NextKeeps(c, sys, steps[0]);
      StandingStaysSilent(c, Next(c, sys, steps[0]), steps[1..], id);
    }
  }

  lemma StandsThere(sys: System, id: Id)
    requires Standing(sys, id)
    ensures id in sys.deals
  {
  }

  /** A database failure between the put of a signed deal and its messages loses them for good, unless the
      workflow still has a result to put: in every later run, whatever is approved, decided or signed, no
      message of the deal is added or changed, to a supplier, the payment adapter or the source of a document.
      Once the workflow is over the deal stays completed, and if nobody took it up early nothing of it is ever in
      the outbox, so that its draft never reaches the adapter. */
  lemma UnsentForGood(c: Config, sys: System, steps: seq<Step>)
    requires Reachable(c, sys) && c.minimumQuotes >= 1 && sys.op.Some? && sys.op.value.Messaging?
    ensures var id, after := sys.op.value.deal.dealId, Execute(c, Next(c, sys, OpFails), steps);
            && id in sys.deals && id in sys.tasks && id in after.deals
            && (!HasResultToPut(sys.tasks[id]) && Closed(sys.deals[id].status) ==>
                  SameMessages(sys.outbox, after.outbox, id))
            && (Finished(sys, id) && sys.deals[id].status == Completed ==> after.deals[id] == sys.deals[id])
            && (id !in sys.early ==>
                  after.deals[id].status == Completed && Absent(after.outbox, id) && !DraftSent(after.outbox, id))
  {
    hide Invariant, Reachable, Standing, SameMessages, Absent, DraftSent, MessagesHold, TableHolds, HasResultToPut;
    hide Closed, Next;
    var id, failed := sys.op.value.deal.dealId, Next(c, sys, OpFails);
    var after := Execute(c, failed, steps);
    ReachableMessages(c, sys);
    SubjectIsThere(c, sys);
    SendsResult(c, sys, id);
    FailureReleases(c, sys);
    NextKeeps(c, sys, OpFails);
    MessagesKept(c, sys, OpFails);
    if id !in sys.early { FailureIsCalm(c, sys); }
    FailureStands(sys, failed, id);
    ExecuteKeeps(c, failed, steps);
    DealStays(c, failed, steps, id);
    if Standing(failed, id) {
      DecisionStands(c, failed, steps, id);
      StandingStaysSilent(c, failed, steps, id);
    }
    if id !in sys.early {
      AbsentStays(sys.outbox, after.outbox, id);
      NoDraftSent(after.outbox, id);
    }
  }

  lemma FailureReleases(c: Config, sys: System)
    requires sys.op.Some? && sys.op.value.Messaging?
    ensures var failed := Next(c, sys, OpFails);
            && failed.op.None? && failed.deals == sys.deals && failed.tasks == sys.tasks && failed.outbox == sys.outbox
            && failed.early == sys.early && failed.unsent == sys.unsent + {sys.op.value.deal.dealId}
  {
  }

  lemma FailureStands(sys: System, failed: System, id: Id)
    requires failed.op.None? && failed.deals == sys.deals && failed.tasks == sys.tasks
    requires id in sys.deals && id in sys.tasks && sys.tasks[id].Running?
    ensures Standing(failed, id) <==> !HasResultToPut(sys.tasks[id]) && Closed(sys.deals[id].status)
    ensures Finished(sys, id) <==> Finished(failed, id)
    ensures Finished(sys, id) && sys.deals[id].status == Completed ==> Standing(failed, id)
  {
  }

  lemma FailureIsCalm(c: Config, sys: System)
    requires Invariant(c, sys) && MessagesHold(sys) && sys.op.Some? && sys.op.value.Messaging?
    requires sys.op.value.deal.dealId !in sys.early
    ensures var id := sys.op.value.deal.dealId;
            && id in sys.deals && Finished(sys, id) && sys.deals[id].status == Completed && Absent(sys.outbox, id)
  {
    hide CellsHold, TrustInvariant, AnswersHold, FlightHolds, RecordsPurchase, Absent, SentFor;
    var id := sys.op.value.deal.dealId;
    CalmAt(c, sys, id);
    assert DeliveryHolds(sys.outbox, id, sys.deals[id], DeliveryOf(sys, id));
  }

  /** No deal is ever removed. */
  lemma {:induction false} DealStays(c: Config, sys: System, steps: seq<Step>, id: Id)
    requires id in sys.deals
    ensures id in Execute(c, sys, steps).deals
    decreases |steps|
  {
    hide Next;
    if steps != [] {
      StepKeepsDeal(c, sys, steps[0], id);
      DealStays(c, Next(c, sys, steps[0]), steps[1..], id);
    }
  }

  lemma StepKeepsDeal(c: Config, sys: System, step: Step, id: Id)
    requires id in sys.deals
    ensures id in Next(c, sys, step).deals
  {
    hide StartApproval, DecidedRecord, StartSignature, RecordFromState, Advance, NodeDone, ApprovedRecord, FailedRecord;
  }

  /******* A deal signed twice *******/

  /** The last put of the workflow, an approval answered from the cache, and a signature. */
  function AgainSteps(id: Id, approval: Approval, request: SignatureRequest, now: Time, kept: seq<Event>): seq<Step> {
    [TaskPut(id, now, kept)] + ([BeginApprove(id, approval, now)] + [TrustStage(now)] + [OpPut(now, kept)])
    + SignSteps(id, request, now, kept)
  }

  /** The record the last put of the workflow stores. */
  function ShownAgain(c: Config, sys: System, id: Id, now: Time, kept: seq<Event>): Deal
    requires AtWork(sys, id) && RecordFromState(c.setup, sys.tasks[id].draft, sys.tasks[id].ws, now).Ok?
  {
    RecordFromState(c.setup, sys.tasks[id].draft, sys.tasks[id].ws, now).value.(events := kept)
  }

  /** While the last put of the workflow is still to come, an ordered deal, even a completed one, can be
      approved and signed again, for any quote: the award of that quote's supplier is stored and published
      beside those stored before, and the payment draft stays the one of the first approval. */
  lemma SecondSignature(c: Config, sys: System, id: Id, approval: Approval, request: SignatureRequest, now: Time,
                        kept: seq<Event>)
    requires Reachable(c, sys) && c.minimumQuotes >= 1 && sys.op.None? && AtWork(sys, id)
    requires sys.tasks[id].phase == AtLastPut && Ordered(sys.deals[id].status)
    requires RecordFromState(c.setup, sys.tasks[id].draft, sys.tasks[id].ws, now).Ok?
    requires StartApproval(c.setup, id, ShownAgain(c, sys, id, now, kept), approval, now).Calls?
    requires sys.deals[id].mandate.Permits(EdoAction, now) && request.confirmation
    requires request.signedBy == sys.deals[id].mandate.authorizedBy
    requires Some(request.paymentDraftId) == sys.deals[id].paymentDraftId
    ensures sys.deals[id].paymentDraft.Some?
    ensures var after := Execute(c, sys, AgainSteps(id, approval, request, now, kept));
            && Reachable(c, after) && after.op.None? && id in after.deals && after.deals[id].status == Completed
            && after.deals[id].selectedQuoteId == Some(approval.quoteId)
            && after.deals[id].paymentDraft == Some(sys.deals[id].paymentDraft.value.(status := Signed))
            && HasWinner(after.deals[id]) && AllPublished(after.outbox, id)
            && (forall s :: HasKey(after.outbox, AwardKey(id, s)) <==>
                  HasKey(sys.outbox, AwardKey(id, s)) || s == WinnerOf(after.deals[id]))
            && (AllHeard(after.outbox, id, after.deals[id]) <==>
                forall s :: HasKey(sys.outbox, AwardKey(id, s)) ==> s == WinnerOf(after.deals[id]))
  {
    hide Reachable, Next, Execute, StartApproval, StartSignature, RecordFromState, ApprovedRecord, AllPublished, HasKey,
        AllHeard, WinnerOf, Agrees;
    var put := TaskPut(id, now, kept);
    var again := Next(c, sys, put);
    var a := OrderedIsCached(c, sys, id);
    LastPutErasesApproval(c, sys, id, now, kept);
    LastPutIs(c, sys, id, now, kept);
    SecondApprovalIsCached(c, again, id, approval, now, kept);
    FourSteps(c, sys, put, BeginApprove(id, approval, now), TrustStage(now), OpPut(now, kept));
    var steps := [put] + ([BeginApprove(id, approval, now)] + [TrustStage(now)] + [OpPut(now, kept)]);
    RunIsReachable(c, sys, steps);
    var approved := Execute(c, sys, steps);
    ApprovedIs(c, id, again.deals[id], approval, a, now, kept);
    ApprovalLeavesOutbox(c, again, id, approval, now, kept);
    SignatureProgress(c, approved, id, request, now);
    SignatureHeardIff(c, approved, id, request, now, kept);
    ExecuteConcat(c, sys, steps, SignSteps(id, request, now, kept));
  }

  lemma OrderedIsCached(c: Config, sys: System, id: Id) returns (a: Artifacts)
    requires Reachable(c, sys) && c.minimumQuotes >= 1 && id in sys.deals && Ordered(sys.deals[id].status)
    ensures id in sys.trust.purchases && sys.trust.purchases[id] == a
    ensures sys.deals[id].paymentDraftId == Some(a.paymentDraft.paymentDraftId)
    ensures sys.deals[id].paymentDraft.Some?
    ensures sys.deals[id].paymentDraft.value.(status := Signed) == a.paymentDraft.(status := Signed)
  {
    hide CellHolds, TaskHolds, RecordHolds, CacheHolds, Made;
    HoldsAt(c, sys, id);
    PartsHold(c, sys.trust.rows, id, CellOf(sys, id));
    OrderedParts(c.setup, sys.trust.rows, CellOf(sys, id));
    a := sys.trust.purchases[id];
  }

  lemma LastPutIs(c: Config, sys: System, id: Id, now: Time, kept: seq<Event>)
    requires Reachable(c, sys) && c.minimumQuotes >= 1 && AtWork(sys, id) && sys.tasks[id].phase == AtLastPut
    requires RecordFromState(c.setup, sys.tasks[id].draft, sys.tasks[id].ws, now).Ok?
    ensures var after := Next(c, sys, TaskPut(id, now, kept));
            && id in after.deals && after.deals[id] == ShownAgain(c, sys, id, now, kept)
            && after.op == sys.op && after.outbox == sys.outbox
            && after.deals[id].mandate == sys.deals[id].mandate
  {
    hide RecordHolds, CacheHolds, OpHolds, Intact, Calm, Made, PreviewSnapshot;
    HoldsAt(c, sys, id);
  }

  lemma ApprovedIs(c: Config, id: Id, deal: Deal, approval: Approval, a: Artifacts, now: Time, kept: seq<Event>)
    requires StartApproval(c.setup, id, deal, approval, now).Calls?
    ensures var call := StartApproval(c.setup, id, deal, approval, now).call;
            var approved := ApprovedRecord(approval, call, a, now).(events := kept);
            && approved.status == PaymentSignatureRequired && approved.mandate == deal.mandate
            && approved.selectedQuoteId == Some(approval.quoteId)
            && approved.paymentDraft == Some(a.paymentDraft)
            && approved.paymentDraftId == Some(a.paymentDraft.paymentDraftId)
  {
    hide BuildSnapshot;
  }

  lemma ApprovalLeavesOutbox(c: Config, sys: System, id: Id, approval: Approval, now: Time, kept: seq<Event>)
    ensures Next(c, Next(c, Next(c, sys, BeginApprove(id, approval, now)), TrustStage(now)), OpPut(now, kept)).outbox
         == sys.outbox
  {
    hide Next;
    var begun := Next(c, sys, BeginApprove(id, approval, now));
    OutboxRests(c, sys, BeginApprove(id, approval, now));
    OutboxRests(c, begun, TrustStage(now));
    OutboxRests(c, Next(c, begun, TrustStage(now)), OpPut(now, kept));
  }
}
