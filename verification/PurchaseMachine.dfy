/** One process lifetime: the store, the background workflow tasks, the trust service and the outbox,
    moved one await at a time. `approve`, `decide` and `sign_payment` hold one lock, so at most one of
    them is under way; the workflow tasks take no lock and write at any moment. */
module PurchaseMachine {
  import opened Wrappers
  import opened Domain
  import opened TrustService
  import opened DealService
  import opened Outbox
  import Workflow

  datatype Config = Config(setup: Setup, minimumQuotes: nat)

  /** Where `_process` stands: about to run a node, to put the record of the state it has, to put it
      once more after the loop, to put the failed record, or done. */
  datatype Phase =
    | AtNode(node: Workflow.Node)
    | AtPut(next: Option<Workflow.Node>)
    | AtLastPut
    | AtFailedPut
    | Over

  datatype Task = Scheduled | Running(draft: Deal, ws: Workflow.WorkflowState, phase: Phase)

  /** The human step that holds the lock, at the await it has reached. */
  datatype Op =
    | Purchasing(approval: Approval, flight: Flight)
    | Deciding(updated: Deal)
    | Signing(updated: Deal, quote: Quote)
    | Messaging(deal: Deal, quote: Quote)
    | Publishing(dealId: Id)
  {
    function Subject(): Id {
      match this
      case Purchasing(_, flight) => flight.call.key
      case Deciding(updated) => updated.dealId
      case Signing(updated, _) => updated.dealId
      case Messaging(deal, _) => deal.dealId
      case Publishing(dealId) => dealId
    }
  }

  /** The last six fields are history: the approvals answered so far; for each deal the quote its payment
      draft was created for; the deals a human step took up early, before the workflow's last put; those
      for which the put of an approval was lost; and those whose messages were not appended, or not
      published. */
  datatype System = System(
    deals: map<Id, Deal>, tasks: map<Id, Task>, trust: TrustState, outbox: seq<Message>, op: Option<Op>,
    answers: seq<ApprovalResult>, winners: map<Id, Id>,
    early: set<Id>, lost: set<Id>, unsent: set<Id>, unpublished: set<Id>)

  const EMPTY_SYSTEM := System(map[], map[], EMPTY_TRUST, [], None, [], map[], {}, {}, {}, {})

  /** A put may keep a longer event list than the one it is given, as the SQL store does. */
  datatype Step =
    | Submit(intent: Intent, mandate: Mandate, now: Time)
    | StartTask(dealId: Id)
    | TaskNode(dealId: Id, inputs: Workflow.Inputs)
    | TaskPut(dealId: Id, now: Time, kept: seq<Event>)
    | TaskRaises(dealId: Id)
    | TaskPutFails(dealId: Id)
    | BeginApprove(dealId: Id, approval: Approval, now: Time)
    | TrustStage(now: Time)
    | BeginDecide(dealId: Id, approval: Approval, now: Time)
    | BeginSign(dealId: Id, request: SignatureRequest, now: Time)
    | OpPut(now: Time, kept: seq<Event>)
    | OpFails
    | AppendMessages
    | PublishMessages

  /******* The workflow task *******/

  function Submitted(sys: System, intent: Intent, mandate: Mandate, now: Time): System {
    var id := sys.trust.nextId;
    sys.(deals := sys.deals[id := NewDraft(id, intent, mandate, now)],
         tasks := sys.tasks[id := Scheduled],
         trust := sys.trust.(nextId := id + 1))
  }

  predicate AtWork(sys: System, id: Id) {
    id in sys.tasks && id in sys.deals && sys.tasks[id].Running?
  }

  function WithPhase(sys: System, id: Id, phase: Phase): System
    requires AtWork(sys, id)
  {
    sys.(tasks := sys.tasks[id := sys.tasks[id].(phase := phase)])
  }

  function TaskStarted(sys: System, id: Id): System {
    if id in sys.tasks && id in sys.deals && sys.tasks[id].Scheduled? then
      var draft := sys.deals[id];
      sys.(tasks := sys.tasks[id := Running(draft, InitialState(draft), AtPut(Some(Workflow.Validate)))])
    else sys
  }

  function NodeDone(c: Config, task: Task, inputs: Workflow.Inputs): Task
    requires task.Running? && task.phase.AtNode?
  {
    match Workflow.RunNode(task.phase.node, JobOf(task.draft, c.minimumQuotes), task.ws, inputs)
    case None => task.(phase := AtFailedPut)
    case Some(ws) => task.(ws := ws, phase := AtPut(Workflow.Route(task.phase.node, ws)))
  }

  function NodeRun(c: Config, sys: System, id: Id, inputs: Workflow.Inputs): System {
    if AtWork(sys, id) && sys.tasks[id].phase.AtNode? then
      sys.(tasks := sys.tasks[id := NodeDone(c, sys.tasks[id], inputs)])
    else sys
  }

  predicate HasRecordToPut(phase: Phase) {
    phase.AtPut? || phase.AtLastPut?
  }

  function AfterPutPhase(phase: Phase): Phase
    requires HasRecordToPut(phase)
  {
    match phase
    case AtPut(Some(node)) => AtNode(node)
    case AtPut(None) => AtLastPut
    case AtLastPut => Over
  }

  /** Building the record can raise inside the try block; the put of the failed record cannot. */
  function TaskPuts(c: Config, sys: System, id: Id, now: Time, kept: seq<Event>): System {
    if !AtWork(sys, id) then sys
    else
      var task := sys.tasks[id];
      if task.phase.AtFailedPut? then
        WithPhase(sys, id, Over).(deals := sys.deals[id := FailedRecord(task.draft, now).(events := kept)])
      else if !HasRecordToPut(task.phase) then sys
      else
        match RecordFromState(c.setup, task.draft, task.ws, now)
        case Err(_) => WithPhase(sys, id, AtFailedPut)
        case Ok(deal) => WithPhase(sys, id, AfterPutPhase(task.phase)).(deals := sys.deals[id := deal.(events := kept)])
  }

  /** Anything inside the try block raises: a node, the stream, or a put of the loop. */
  function TaskRaised(sys: System, id: Id): System {
    if AtWork(sys, id) && (sys.tasks[id].phase.AtNode? || HasRecordToPut(sys.tasks[id].phase))
    then WithPhase(sys, id, AtFailedPut) else sys
  }

  /** The put after the try block raises: the workflow task ends without it. */
  function TaskEnds(sys: System, id: Id): System {
    if AtWork(sys, id) && (sys.tasks[id].phase.AtLastPut? || sys.tasks[id].phase.AtFailedPut?)
    then WithPhase(sys, id, Over) else sys
  }

  /******* The human steps *******/

  predicate Finished(sys: System, id: Id) {
    id in sys.tasks && sys.tasks[id].Running? && sys.tasks[id].phase.Over?
  }

  /** Taking the lock for a deal; too early while its workflow can still write. */
  function Locked(sys: System, op: Op): System {
    sys.(op := Some(op), early := if Finished(sys, op.Subject()) then sys.early else sys.early + {op.Subject()})
  }

  function ApproveBegun(c: Config, sys: System, id: Id, approval: Approval, now: Time): System {
    if sys.op.Some? || id !in sys.deals then sys
    else
      match StartApproval(c.setup, id, sys.deals[id], approval, now)
      case Calls(call) => Locked(sys, Purchasing(approval, Entered(call)))
      case Answered(Ok(result)) => sys.(answers := sys.answers + [result])
      case Answered(Err(_)) => sys
  }

  /** A stage of the trust call; a control error ends the approval. */
  function TrustMoved(c: Config, sys: System, now: Time): System {
    match sys.op
    case Some(Purchasing(approval, f)) =>
      if Ended(f) then sys
      else
        var next := Advance(c.setup.controls, sys.trust, f, now);
        sys.(trust := next.0,
             op := if next.1.Raised? then None else Some(Purchasing(approval, next.1)),
             winners := if f.Cleared? && f.call.key !in sys.trust.payments
                        then sys.winners[f.call.key := approval.quoteId] else sys.winners)
    case _ => sys
  }

  function DecideBegun(sys: System, id: Id, approval: Approval, now: Time): System {
    if sys.op.Some? || id !in sys.deals || approval.kind == Approve then sys
    else
      match DecidedRecord(sys.deals[id], approval, now)
      case Err(_) => sys
      case Ok(updated) => Locked(sys, Deciding(updated))
  }

  function SignBegun(sys: System, id: Id, request: SignatureRequest, now: Time): System {
    if sys.op.Some? || id !in sys.deals then sys
    else
      match StartSignature(id, sys.deals[id], request, now)
      case SignatureAnswered(_) => sys
      case Signs(quote) =>
        Locked(sys, Signing(SignedRecord(sys.deals[id], request, quote, sys.trust.nextId, now), quote))
        .(trust := sys.trust.(nextId := sys.trust.nextId + 3))
  }

  /** The put at the end of a human step. */
  function OpPuts(sys: System, now: Time, kept: seq<Event>): System {
    match sys.op
    case Some(Purchasing(approval, Returned(call, a))) =>
      sys.(deals := sys.deals[call.key := ApprovedRecord(approval, call, a, now).(events := kept)], op := None,
           answers := sys.answers + [ApprovalAnswer(call.key, approval, call, a)])
    case Some(Deciding(updated)) =>
      sys.(deals := sys.deals[updated.dealId := updated.(events := kept)], op := None)
    case Some(Signing(updated, quote)) =>
      sys.(deals := sys.deals[updated.dealId := updated.(events := kept)], op := Some(Messaging(updated, quote)))
    case _ => sys
  }

  /** The database fails under a human step: the ledger, the put or the outbox raises. */
  function OpFailed(sys: System): System {
    match sys.op
    case Some(Purchasing(_, f)) =>
      if f.Prepared? || f.Anchored? then sys.(op := None)
      else if f.Returned? then sys.(op := None, lost := sys.lost + {f.call.key})
      else sys
    case Some(Deciding(_)) => sys.(op := None)
    case Some(Signing(_, _)) => sys.(op := None)
    case Some(Messaging(deal, _)) => sys.(op := None, unsent := sys.unsent + {deal.dealId})
    case Some(Publishing(id)) => sys.(op := None, unpublished := sys.unpublished + {id})
    case None => sys
  }

  function MessagesAppended(sys: System): System {
    match sys.op
    case Some(Messaging(deal, quote)) =>
      sys.(outbox := AppendAll(sys.outbox, MessagesOf(deal, quote)), op := Some(Publishing(deal.dealId)))
    case _ => sys
  }

  function MessagesPublished(sys: System): System {
    match sys.op
    case Some(Publishing(dealId)) => sys.(outbox := Publish(sys.outbox, dealId), op := None)
    case _ => sys
  }

  /******* Runs *******/

  function Next(c: Config, sys: System, step: Step): System {
    match step
    case Submit(intent, mandate, now) => Submitted(sys, intent, mandate, now)
    case StartTask(id) => TaskStarted(sys, id)
    case TaskNode(id, inputs) => NodeRun(c, sys, id, inputs)
    case TaskPut(id, now, kept) => TaskPuts(c, sys, id, now, kept)
    case TaskRaises(id) => TaskRaised(sys, id)
    case TaskPutFails(id) => TaskEnds(sys, id)
    case BeginApprove(id, approval, now) => ApproveBegun(c, sys, id, approval, now)
    case TrustStage(now) => TrustMoved(c, sys, now)
    case BeginDecide(id, approval, now) => DecideBegun(sys, id, approval, now)
    case BeginSign(id, request, now) => SignBegun(sys, id, request, now)
    case OpPut(now, kept) => OpPuts(sys, now, kept)
    case OpFails => OpFailed(sys)
    case AppendMessages => MessagesAppended(sys)
    case PublishMessages => MessagesPublished(sys)
  }

  function Execute(c: Config, sys: System, steps: seq<Step>): System
    decreases |steps|
  {
    if steps == [] then sys else Execute(c, Next(c, sys, steps[0]), steps[1..])
  }

  /** A state of the process reached from its start. */
  ghost predicate Reachable(c: Config, sys: System) {
    exists steps: seq<Step> :: Execute(c, EMPTY_SYSTEM, steps) == sys
  }
}
