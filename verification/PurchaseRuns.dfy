/** The invariant of the whole process, kept by every step of every run. */
module PurchaseRuns {
  import opened Wrappers
  import opened Domain
  import opened TrustService
  import opened DealService
  import opened Outbox
  import opened PurchaseMachine
  import opened PurchaseInvariant
  import Workflow

  /** An answered approval names the draft that was issued for its deal. */
  predicate AnswerHolds(ts: TrustState, r: ApprovalResult) {
    && r.dealId in ts.payments
    && r.orderId == ts.payments[r.dealId].orderId
    && r.paymentDraftId == ts.payments[r.dealId].paymentDraftId
  }

  ghost predicate KeysHold(sys: System) {
    && (forall id :: id in sys.deals <==> id in sys.tasks)
    && (forall id :: id in sys.deals ==> id < sys.trust.nextId)
    && (forall id :: id in sys.trust.payments ==> id in sys.deals)
    && (sys.op.Some? ==> sys.op.value.Subject() in sys.deals)
    && sys.unsent <= sys.deals.Keys && sys.unpublished <= sys.deals.Keys
  }

  ghost predicate AnswersHold(sys: System) {
    forall i :: 0 <= i < |sys.answers| ==> AnswerHolds(sys.trust, sys.answers[i])
  }

  ghost predicate FlightHolds(c: Config, sys: System) {
    sys.op.Some? && sys.op.value.Purchasing? ==> FlightSound(c.setup.controls, sys.trust, sys.op.value.flight)
  }

  ghost predicate CellsHold(c: Config, sys: System)
    requires KeysHold(sys)
  {
    forall id :: id in sys.deals ==> CellHolds(c, sys.trust.rows, id, CellOf(sys, id))
  }

  ghost predicate Invariant(c: Config, sys: System) {
    && TrustInvariant(c.setup.controls, sys.trust) && KeysHold(sys) && AnswersHold(sys) && FlightHolds(c, sys)
    && CellsHold(c, sys)
  }

  lemma EmptyInvariant(c: Config)
    ensures Invariant(c, EMPTY_SYSTEM)
  {
    EmptyTrustInvariant(c.setup.controls);
  }

  /** Nothing but the cell of `id` changed. */
  ghost predicate OnlyCell(sys: System, after: System, id: Id)
    requires KeysHold(sys) && KeysHold(after)
  {
    && sys.trust.rows <= after.trust.rows
    && (forall j :: j in after.deals <==> j in sys.deals || j == id)
    && (forall j :: j in sys.deals && j != id ==> CellOf(after, j) == CellOf(sys, j))
  }

  lemma OneCell(c: Config, sys: System, after: System, id: Id)
    requires Invariant(c, sys) && KeysHold(after) && OnlyCell(sys, after, id) && id in after.deals
    requires CellHolds(c, after.trust.rows, id, CellOf(after, id))
    ensures CellsHold(c, after)
  {
    hide CellHolds, TrustInvariant, AnswerHolds, FlightSound;
    forall j | j in after.deals ensures CellHolds(c, after.trust.rows, j, CellOf(after, j)) {
      if j != id {
        CellHoldsAfterAppend(c, sys.trust.rows, after.trust.rows, j, CellOf(sys, j));
      }
    }
  }

  lemma AnswersGrow(sys: System, after: System)
    requires AnswersHold(sys) && Grows(sys.trust, after.trust) && after.answers == sys.answers
    ensures AnswersHold(after)
  {
    forall i | 0 <= i < |after.answers| ensures AnswerHolds(after.trust, after.answers[i]) {
      assert AnswerHolds(sys.trust, sys.answers[i]);
    }
  }

  /** Skipping UUIDs disturbs nothing. */
  lemma SupplyKeeps(c: Config, ts: TrustState, n: nat)
    requires TrustInvariant(c.setup.controls, ts)
    ensures TrustInvariant(c.setup.controls, ts.(nextId := ts.nextId + n)) && Grows(ts, ts.(nextId := ts.nextId + n))
  {
    var after := ts.(nextId := ts.nextId + n);
    forall k | k in after.payments ensures IdsUsed(after.payments[k], after.nextId) {
      assert IdsUsed(ts.payments[k], ts.nextId);
    }
  }

  /******* The workflow's steps *******/

  lemma NeverCached(c: Config, ts: TrustState, id: Id)
    requires TrustInvariant(c.setup.controls, ts) && id !in ts.payments
    ensures id !in ts.purchases
  {
  }

  lemma SubmitFrame(sys: System, intent: Intent, mandate: Mandate, now: Time)
    requires KeysHold(sys) && sys.trust.nextId !in sys.trust.purchases
    ensures var id, after := sys.trust.nextId, Submitted(sys, intent, mandate, now);
            && KeysHold(after) && OnlyCell(sys, after, id) && id in after.deals
            && CellOf(after, id)
               == Cell(NewDraft(id, intent, mandate, now), Scheduled, None, None, Lookup(sys.winners, id), None,
                       id in sys.early, id in sys.lost, false)
  {
    hide NewDraft;
  }

  lemma SubmitKeeps(c: Config, sys: System, intent: Intent, mandate: Mandate, now: Time)
    requires Invariant(c, sys)
    ensures Invariant(c, Submitted(sys, intent, mandate, now))
  {
    hide CellHolds, TrustInvariant, FlightHolds, AnswersHold, OnlyCell, NewDraft;
    var id, after := sys.trust.nextId, Submitted(sys, intent, mandate, now);
    SupplyKeeps(c, sys.trust, 1);
    AnswersGrow(sys, after);
    NeverCached(c, sys.trust, id);
    SubmitFrame(sys, intent, mandate, now);
    NewCell(c, after.trust.rows, id, intent, mandate, now, Lookup(sys.winners, id), id in sys.early, id in sys.lost);
    OneCell(c, sys, after, id);
    FlightAfterGrowth(c, sys, after);
  }

  lemma FlightAfterGrowth(c: Config, sys: System, after: System)
    requires FlightHolds(c, sys) && Grows(sys.trust, after.trust) && (after.op == sys.op || after.op.None?)
    ensures FlightHolds(c, after)
  {
    if after.op.Some? && after.op.value.Purchasing? {
      SoundAfterGrowth(c.setup.controls, sys.trust, after.trust, sys.op.value.flight);
    }
  }

  /** A step that changes one task, and perhaps its record, and nothing else. */
  lemma TaskKeeps(c: Config, sys: System, id: Id, task: Task, deal: Deal)
    requires Invariant(c, sys) && id in sys.deals
    requires CellHolds(c, sys.trust.rows, id, CellOf(sys, id).(task := task, deal := deal))
    ensures Invariant(c, sys.(tasks := sys.tasks[id := task], deals := sys.deals[id := deal]))
  {
    hide CellHolds, TrustInvariant, AnswerHolds, FlightSound;
    var after := sys.(tasks := sys.tasks[id := task], deals := sys.deals[id := deal]);
    assert CellOf(after, id) == CellOf(sys, id).(task := task, deal := deal);
    AnswersGrow(sys, after);
    OneCell(c, sys, after, id);
  }

  lemma TaskOnlyKeeps(c: Config, sys: System, id: Id, task: Task)
    requires Invariant(c, sys) && id in sys.deals
    requires CellHolds(c, sys.trust.rows, id, CellOf(sys, id).(task := task))
    ensures Invariant(c, sys.(tasks := sys.tasks[id := task]))
  {
    hide CellHolds, TrustInvariant, AnswerHolds, FlightSound;
    assert CellOf(sys, id).(task := task, deal := sys.deals[id]) == CellOf(sys, id).(task := task);
    TaskKeeps(c, sys, id, task, sys.deals[id]);
    assert sys.deals[id := sys.deals[id]] == sys.deals;
  }

  lemma StartKeeps(c: Config, sys: System, id: Id)
    requires Invariant(c, sys)
    ensures Invariant(c, TaskStarted(sys, id))
  {
    hide CellHolds, TrustInvariant, AnswerHolds, FlightSound;
    if id in sys.tasks && id in sys.deals && sys.tasks[id].Scheduled? {
      var draft := sys.deals[id];
      StartedCell(c, sys.trust.rows, id, CellOf(sys, id));
      TaskOnlyKeeps(c, sys, id, Running(draft, InitialState(draft), AtPut(Some(Workflow.Validate))));
    }
  }

  lemma NodeKeeps(c: Config, sys: System, id: Id, inputs: Workflow.Inputs)
    requires Invariant(c, sys) && c.minimumQuotes >= 1
    ensures Invariant(c, NodeRun(c, sys, id, inputs))
  {
    hide CellHolds, TrustInvariant, AnswerHolds, FlightSound;
    if AtWork(sys, id) && sys.tasks[id].phase.AtNode? {
      NodeCell(c, sys.trust.rows, id, CellOf(sys, id), inputs);
      TaskOnlyKeeps(c, sys, id, NodeDone(c, sys.tasks[id], inputs));
    }
  }

  lemma EndKeeps(c: Config, sys: System, id: Id, phase: Phase)
    requires Invariant(c, sys) && AtWork(sys, id) && !sys.tasks[id].phase.Over?
        && (phase == AtFailedPut || phase == Over)
    ensures Invariant(c, WithPhase(sys, id, phase))
  {
    hide CellHolds, TrustInvariant, AnswerHolds, FlightSound;
    EndedCell(c, sys.trust.rows, id, CellOf(sys, id), phase);
    TaskOnlyKeeps(c, sys, id, sys.tasks[id].(phase := phase));
  }

  lemma RaiseKeeps(c: Config, sys: System, id: Id)
    requires Invariant(c, sys)
    ensures Invariant(c, TaskRaised(sys, id)) && Invariant(c, TaskEnds(sys, id))
  {
    hide Invariant;
    if TaskRaised(sys, id) != sys { EndKeeps(c, sys, id, AtFailedPut); }
    if TaskEnds(sys, id) != sys { EndKeeps(c, sys, id, Over); }
  }

  lemma TaskPutKeeps(c: Config, sys: System, id: Id, now: Time, kept: seq<Event>)
    requires Invariant(c, sys)
    ensures Invariant(c, TaskPuts(c, sys, id, now, kept))
  {
    hide CellHolds, TrustInvariant, AnswerHolds, FlightSound, RecordFromState;
    if AtWork(sys, id) {
      var task, cell := sys.tasks[id], CellOf(sys, id);
      if task.phase.AtFailedPut? {
        var deal := FailedRecord(task.draft, now).(events := kept);
        FailedPutCell(c, sys.trust.rows, id, cell, now, kept);
        assert cell.(task := task.(phase := Over), deal := deal) == cell.(deal := deal, task := task.(phase := Over));
        TaskKeeps(c, sys, id, task.(phase := Over), deal);
      } else if HasRecordToPut(task.phase) {
        if RecordFromState(c.setup, task.draft, task.ws, now).Err? {
          EndKeeps(c, sys, id, AtFailedPut);
        } else {
          var deal := RecordFromState(c.setup, task.draft, task.ws, now).value.(events := kept);
          var next := task.(phase := AfterPutPhase(task.phase));
          PutCell(c, sys.trust.rows, id, cell, now, kept);
          assert cell.(task := next, deal := deal) == cell.(deal := deal, task := next);
          TaskKeeps(c, sys, id, next, deal);
        }
      }
    }
  }

  /******* The human steps *******/

  lemma LockFrame(sys: System, op: Op, n: nat)
    requires KeysHold(sys) && sys.op.None? && op.Subject() in sys.deals
    ensures var id, after := op.Subject(), Locked(sys, op).(trust := sys.trust.(nextId := sys.trust.nextId + n));
            && KeysHold(after) && OnlyCell(sys, after, id)
            && CellOf(after, id)
               == CellOf(sys, id).(op := Some(op), early := id in sys.early || !IsOver(sys.tasks[id]))
  {
  }

  lemma LockKeeps(c: Config, sys: System, op: Op, n: nat)
    requires Invariant(c, sys) && sys.op.None? && op.Subject() in sys.deals
    requires op.Purchasing? ==> op.flight.Entered?
    requires CellHolds(c, sys.trust.rows, op.Subject(), CellOf(sys, op.Subject()).(
               op := Some(op), early := op.Subject() in sys.early || !IsOver(sys.tasks[op.Subject()])))
    ensures Invariant(c, Locked(sys, op).(trust := sys.trust.(nextId := sys.trust.nextId + n)))
  {
    hide CellHolds, TrustInvariant, AnswersHold, OnlyCell;
    var id, after := op.Subject(), Locked(sys, op).(trust := sys.trust.(nextId := sys.trust.nextId + n));
    SupplyKeeps(c, sys.trust, n);
    AnswersGrow(sys, after);
    LockFrame(sys, op, n);
    OneCell(c, sys, after, id);
  }

  lemma ReplayAnswer(c: Config, sys: System, id: Id, quoteId: Id)
    requires Invariant(c, sys) && id in sys.deals && AlreadyOrdered(sys.deals[id].status)
    ensures ReplayedApproval(id, sys.deals[id], quoteId).Ok? ==>
        AnswerHolds(sys.trust, ReplayedApproval(id, sys.deals[id], quoteId).value)
  {
    hide TaskHolds, OpHolds, Intact, Calm, TrustInvariant, FlightSound, Made;
    var cell := CellOf(sys, id);
    assert CellHolds(c, sys.trust.rows, id, cell);
    assert RecordsPurchase(c.setup, cell.task, cell.deal, cell.cached);
    assert cell.payment == Some(cell.cached.value.paymentDraft);
  }

  lemma ApproveKeeps(c: Config, sys: System, id: Id, approval: Approval, now: Time)
    requires Invariant(c, sys)
    ensures Invariant(c, ApproveBegun(c, sys, id, approval, now))
  {
    hide CellHolds, TrustInvariant, AnswerHolds, FlightSound, BuildSnapshot;
    if sys.op.None? && id in sys.deals {
      match StartApproval(c.setup, id, sys.deals[id], approval, now) {
        case Calls(call) =>
          ApproveCell(c, sys.trust.rows, id, CellOf(sys, id), approval, now);
          LockKeeps(c, sys, Purchasing(approval, Entered(call)), 0);
        case Answered(Ok(result)) =>
          ReplayAnswer(c, sys, id, approval.quoteId);
          SameCells(c, sys, sys.(answers := sys.answers + [result]));
        case Answered(Err(_)) =>
      }
    }
  }

  lemma SameCells(c: Config, sys: System, after: System)
    requires Invariant(c, sys) && after == sys.(answers := after.answers)
    ensures KeysHold(after) && CellsHold(c, after)
  {
    forall j | j in after.deals ensures CellHolds(c, after.trust.rows, j, CellOf(after, j)) {
      assert CellOf(after, j) == CellOf(sys, j);
    }
  }

  lemma StoredId(c: Config, sys: System, id: Id)
    requires KeysHold(sys) && id in sys.deals && CellHolds(c, sys.trust.rows, id, CellOf(sys, id))
    ensures sys.deals[id].dealId == id
  {
    hide TaskHolds, RecordHolds, CacheHolds, OpHolds, Intact, Calm;
  }

  lemma IdHolds(c: Config, sys: System, id: Id)
    requires Invariant(c, sys) && id in sys.deals
    ensures sys.deals[id].dealId == id
  {
    hide CellHolds, TrustInvariant, AnswersHold, FlightHolds;
    StoredId(c, sys, id);
  }

  lemma DecideKeeps(c: Config, sys: System, id: Id, approval: Approval, now: Time)
    requires Invariant(c, sys)
    ensures Invariant(c, DecideBegun(sys, id, approval, now))
  {
    hide CellHolds, TrustInvariant, AnswerHolds, FlightSound;
    if sys.op.None? && id in sys.deals && approval.kind != Approve && DecidedRecord(sys.deals[id], approval, now).Ok? {
      DecideCell(c, sys.trust.rows, id, CellOf(sys, id), approval, now);
      StoredId(c, sys, id);
      LockKeeps(c, sys, Deciding(DecidedRecord(sys.deals[id], approval, now).value), 0);
    }
  }

  lemma SignKeeps(c: Config, sys: System, id: Id, request: SignatureRequest, now: Time)
    requires Invariant(c, sys)
    ensures Invariant(c, SignBegun(sys, id, request, now))
  {
    hide CellHolds, TrustInvariant, AnswerHolds, FlightSound, LifecycleEvents, DocumentsFor;
    if sys.op.None? && id in sys.deals && StartSignature(id, sys.deals[id], request, now).Signs? {
      var quote := StartSignature(id, sys.deals[id], request, now).quote;
      SignCell(c, sys.trust.rows, id, CellOf(sys, id), request, sys.trust.nextId, now);
      StoredId(c, sys, id);
      LockKeeps(c, sys, Signing(SignedRecord(sys.deals[id], request, quote, sys.trust.nextId, now), quote), 3);
    }
  }

  lemma TrustKeeps(c: Config, sys: System, now: Time)
    requires Invariant(c, sys)
    ensures Invariant(c, TrustMoved(c, sys, now))
  {
    hide CellHolds, Advance, TrustInvariant, FlightSound;
    if sys.op.Some? && sys.op.value.Purchasing? && !Ended(sys.op.value.flight) {
      var f := sys.op.value.flight;
      var id, next := f.call.key, Advance(c.setup.controls, sys.trust, f, now);
      var after := TrustMoved(c, sys, now);
      AdvanceKeeps(c.setup.controls, sys.trust, f, now);
      AnswersGrow(sys, after);
      StageFrame(c, sys.trust, f, now);
      forall k | k in after.trust.payments ensures k in after.deals {
        assert k != id ==> Lookup(next.0.payments, k) == Lookup(sys.trust.payments, k);
      }
      StageCellOf(c, sys, now);
      OneCell(c, sys, after, id);
    }
  }

  lemma StageCellOf(c: Config, sys: System, now: Time)
    requires Invariant(c, sys) && sys.op.Some? && sys.op.value.Purchasing? && !Ended(sys.op.value.flight)
    ensures var id, after := sys.op.value.flight.call.key, TrustMoved(c, sys, now);
            CellHolds(c, after.trust.rows, id, CellOf(after, id))
  {
    hide CellHolds, Advance, TrustInvariant, FlightSound;
    var f := sys.op.value.flight;
    var id, cell := f.call.key, CellOf(sys, f.call.key);
    var next := Advance(c.setup.controls, sys.trust, f, now);
    AdvanceKeeps(c.setup.controls, sys.trust, f, now);
    StageFrame(c, sys.trust, f, now);
    CellHoldsAfterAppend(c, sys.trust.rows, next.0.rows, id, cell);
    StageCell(c, sys.trust, f, id, cell, now);
    assert CellOf(TrustMoved(c, sys, now), id)
        == StagedCell(cell, f, next.1, Lookup(next.0.payments, id), Lookup(next.0.purchases, id));
  }

  /** A stage touches the maps at its own key only. */
  lemma StageFrame(c: Config, ts: TrustState, f: Flight, now: Time)
    ensures var next := Advance(c.setup.controls, ts, f, now);
            && next.1.call == f.call
            && (forall j :: j != f.call.key ==> Lookup(next.0.payments, j) == Lookup(ts.payments, j))
            && (forall j :: j != f.call.key ==> Lookup(next.0.purchases, j) == Lookup(ts.purchases, j))
  {
  }

  ghost predicate SameBut(before: set<Id>, after: set<Id>, id: Id) {
    forall j :: j != id ==> (j in before <==> j in after)
  }

  /** The end of a human step: its record is put, or not, and the lock moves on or is released. */
  lemma OpMoves(c: Config, sys: System, after: System, id: Id)
    requires Invariant(c, sys) && sys.op.Some? && id == sys.op.value.Subject() && KeysHold(after)
    requires after.op.Some? ==> after.op.value.Subject() == id && !after.op.value.Purchasing?
    requires after.trust == sys.trust && after.tasks == sys.tasks && after.winners == sys.winners
    requires after.deals == sys.deals[id := after.deals[id]] && after.early == sys.early
    requires SameBut(sys.lost, after.lost, id) && SameBut(sys.unsent, after.unsent, id)
        && SameBut(sys.unpublished, after.unpublished, id)
    requires CellHolds(c, sys.trust.rows, id, CellOf(after, id))
    ensures CellsHold(c, after) && FlightHolds(c, after)
  {
    hide CellHolds, TrustInvariant, AnswerHolds, FlightSound;
    OneCell(c, sys, after, id);
  }

  lemma PutMoves(c: Config, sys: System, deal: Deal, op: Option<Op>, answers: seq<ApprovalResult>)
    requires Invariant(c, sys) && sys.op.Some?
    requires op.Some? ==> op.value.Subject() == sys.op.value.Subject() && !op.value.Purchasing?
    requires CellHolds(c, sys.trust.rows, sys.op.value.Subject(),
        CellOf(sys, sys.op.value.Subject()).(deal := deal, op := op))
    requires AnswersHold(sys.(answers := answers))
    ensures Invariant(c, sys.(deals := sys.deals[sys.op.value.Subject() := deal], op := op, answers := answers))
  {
    hide CellHolds, TrustInvariant, AnswerHolds, FlightSound;
    var id := sys.op.value.Subject();
    var after := sys.(deals := sys.deals[id := deal], op := op, answers := answers);
    assert CellOf(after, id) == CellOf(sys, id).(deal := deal, op := op);
    OpMoves(c, sys, after, id);
  }

  lemma ApprovedAnswer(c: Config, sys: System, approval: Approval, call: Call, a: Artifacts)
    requires Invariant(c, sys) && sys.op == Some(Purchasing(approval, Returned(call, a)))
    ensures AnswersHold(sys.(answers := sys.answers + [ApprovalAnswer(call.key, approval, call, a)]))
  {
    hide CellHolds;
    assert FlightSound(c.setup.controls, sys.trust, sys.op.value.flight);
    assert AnswerHolds(sys.trust, ApprovalAnswer(call.key, approval, call, a));
  }

  lemma PutKeeps(c: Config, sys: System, now: Time, kept: seq<Event>)
    requires Invariant(c, sys)
    ensures Invariant(c, OpPuts(sys, now, kept))
  {
    hide CellHolds, TrustInvariant, AnswerHolds, FlightSound, ApprovedRecord;
    match sys.op {
      case Some(Purchasing(approval, Returned(call, a))) =>
        ApprovedCell(c, sys.trust.rows, call.key, CellOf(sys, call.key), now, kept);
        ApprovedAnswer(c, sys, approval, call, a);
        PutMoves(c, sys, ApprovedRecord(approval, call, a, now).(events := kept), None,
                 sys.answers + [ApprovalAnswer(call.key, approval, call, a)]);
      case Some(Deciding(updated)) =>
        DecidedCell(c, sys.trust.rows, updated.dealId, CellOf(sys, updated.dealId), kept);
        PutMoves(c, sys, updated.(events := kept), None, sys.answers);
      case Some(Signing(updated, quote)) =>
        SignedCell(c, sys.trust.rows, updated.dealId, CellOf(sys, updated.dealId), kept);
        PutMoves(c, sys, updated.(events := kept), Some(Messaging(updated, quote)), sys.answers);
      case _ =>
    }
  }

  lemma ReleaseKeeps(c: Config, sys: System, after: System)
    requires Invariant(c, sys) && sys.op.Some? && !IsDrafting(sys.op)
    requires var id := sys.op.value.Subject();
             && after == sys.(op := after.op, outbox := after.outbox, lost := after.lost, unsent := after.unsent,
                              unpublished := after.unpublished)
             && (after.op.None? || (after.op == Some(Publishing(id)) && sys.op.value.Messaging?))
             && SameBut(sys.lost, after.lost, id) && SameBut(sys.unsent, after.unsent, id)
             && SameBut(sys.unpublished, after.unpublished, id)
             && (HoldsDraft(sys.op) || id in sys.lost ==> id in after.lost)
             && (sys.op.value.Messaging? || sys.op.value.Publishing?
                 || (after.unsent == sys.unsent && after.unpublished == sys.unpublished))
             && (after.op.Some? ==> after.unsent == sys.unsent && after.unpublished == sys.unpublished)
    ensures Invariant(c, after)
  {
    hide CellHolds, TrustInvariant, AnswerHolds, FlightSound;
    var id := sys.op.value.Subject();
    var cell := CellOf(sys, id);
    assert CellHolds(c, sys.trust.rows, id, cell);
    var unserved := id in after.unsent || id in after.unpublished;
    ReleasedCell(c, sys.trust.rows, id, cell, after.op, id in after.lost, unserved);
    assert CellOf(after, id) == cell.(op := after.op, lost := id in after.lost, unserved := unserved);
    assert after.deals == sys.deals[id := after.deals[id]];
    OpMoves(c, sys, after, id);
    AnswersGrow(sys, after);
  }

  lemma FailureKeeps(c: Config, sys: System)
    requires Invariant(c, sys)
    ensures Invariant(c, OpFailed(sys))
  {
    hide Invariant;
    if OpFailed(sys) != sys { ReleaseKeeps(c, sys, OpFailed(sys)); }
  }

  lemma OutboxKeeps(c: Config, sys: System)
    requires Invariant(c, sys)
    ensures Invariant(c, MessagesAppended(sys)) && Invariant(c, MessagesPublished(sys))
  {
    hide Invariant, AppendAll, MessagesOf, Publish;
    if MessagesAppended(sys) != sys { ReleaseKeeps(c, sys, MessagesAppended(sys)); }
    if MessagesPublished(sys) != sys { ReleaseKeeps(c, sys, MessagesPublished(sys)); }
  }

  /******* Every step, every run *******/

  lemma NextKeeps(c: Config, sys: System, step: Step)
    requires Invariant(c, sys) && c.minimumQuotes >= 1
    ensures Invariant(c, Next(c, sys, step))
  {
    hide Invariant, Submitted, TaskStarted, NodeRun, TaskPuts, TaskRaised, TaskEnds;
    hide ApproveBegun, TrustMoved, DecideBegun, SignBegun, OpPuts, OpFailed, MessagesAppended, MessagesPublished;
    match step {
      case Submit(intent, mandate, now) => SubmitKeeps(c, sys, intent, mandate, now);
      case StartTask(id) => StartKeeps(c, sys, id);
      case TaskNode(id, inputs) => NodeKeeps(c, sys, id, inputs);
      case TaskPut(id, now, kept) => TaskPutKeeps(c, sys, id, now, kept);
      case TaskRaises(id) => RaiseKeeps(c, sys, id);
      case TaskPutFails(id) => RaiseKeeps(c, sys, id);
      case BeginApprove(id, approval, now) => ApproveKeeps(c, sys, id, approval, now);
      case TrustStage(now) => TrustKeeps(c, sys, now);
      case BeginDecide(id, approval, now) => DecideKeeps(c, sys, id, approval, now);
      case BeginSign(id, request, now) => SignKeeps(c, sys, id, request, now);
      case OpPut(now, kept) => PutKeeps(c, sys, now, kept);
      case OpFails => FailureKeeps(c, sys);
      case AppendMessages => OutboxKeeps(c, sys);
      case PublishMessages => OutboxKeeps(c, sys);
    }
  }

  lemma {:induction false} ExecuteKeeps(c: Config, sys: System, steps: seq<Step>)
    requires Invariant(c, sys) && c.minimumQuotes >= 1
    ensures Invariant(c, Execute(c, sys, steps))
    decreases |steps|
  {
    hide Invariant, Next;
    if steps != [] {
      NextKeeps(c, sys, steps[0]);
      ExecuteKeeps(c, Next(c, sys, steps[0]), steps[1..]);
    }
  }

  lemma ReachableHolds(c: Config, sys: System)
    requires Reachable(c, sys) && c.minimumQuotes >= 1
    ensures Invariant(c, sys)
  {
    hide Invariant;
    EmptyInvariant(c);
    var steps: seq<Step> :| Execute(c, EMPTY_SYSTEM, steps) == sys;
    ExecuteKeeps(c, EMPTY_SYSTEM, steps);
  }
}
