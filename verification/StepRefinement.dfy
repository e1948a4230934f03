/** The methods of the deal service are runs of the purchase machine: a call that nobody disturbs is a
    few consecutive steps, on the records that the SQL store shows. */
module StepRefinement {
  import opened Wrappers
  import opened Domain
  import opened Store
  import opened StoreRefinement
  import opened TrustService
  import opened DealService
  import opened Outbox
  import opened PurchaseMachine
  import opened PurchaseInvariant
  import opened PurchaseRuns
  import opened PurchaseTheorems

  /** The service's state and the machine's, between two human steps. */
  ghost predicate Matches(sys: System, st: ServiceState) {
    && sys.op.None? && WellFormed(st.tables)
    && Records(st.tables) == sys.deals && st.trust == sys.trust && st.outbox == sys.outbox
  }

  lemma GetMatches(sys: System, st: ServiceState, id: Id)
    requires Matches(sys, st)
    ensures SqlGet(st.tables, id) == if id in sys.deals then Ok(sys.deals[id]) else Err(DealNotFound)
  {
    hide ToRecord, WellFormed;
    assert id in st.tables.rows <==> id in Records(st.tables);
  }

  lemma PutMatches(tables: Tables, deals: map<Id, Deal>, deal: Deal)
    requires WellFormed(tables) && Records(tables) == deals
    requires deal.orderId.Some? ==> forall id :: id in deals && id != deal.dealId ==> deals[id].orderId != deal.orderId
    ensures SqlPut(tables, deal).Ok? && WellFormed(AfterPut(tables, deal))
    ensures Records(AfterPut(tables, deal)) ==
        deals[deal.dealId := deal.(events := Stored(AfterPut(tables, deal), deal.dealId))]
  {
    hide ToRecord, WellFormed, SqlPut, AfterPut, Stored;
    forall id | id in tables.rows && id != deal.dealId
      ensures deal.orderId.Some? ==> ToRecord(tables, id).orderId != deal.orderId
    {
      assert id in Records(tables) && Records(tables)[id] == deals[id];
    }
    SqlPutIsMachinePut(tables, deal);
  }

  /******* Runs *******/

  lemma {:induction false} ExecuteConcat(c: Config, sys: System, first: seq<Step>, second: seq<Step>)
    ensures Execute(c, sys, first + second) == Execute(c, Execute(c, sys, first), second)
    decreases |first|
  {
    hide Next;
    if first == [] {
      assert first + second == second;
    } else {
      assert (first + second)[1..] == first[1..] + second;
      ExecuteConcat(c, Next(c, sys, first[0]), first[1..], second);
    }
  }

  lemma ExecuteOne(c: Config, sys: System, step: Step)
    ensures Execute(c, sys, [step]) == Next(c, sys, step)
  {
    hide Next;
    assert [step][1..] == [];
  }

  function StagesOf(now: Time, n: nat): seq<Step> {
    seq(n, _ => TrustStage(now))
  }

  lemma {:induction false} IdleStages(c: Config, sys: System, now: Time, n: nat)
    requires sys.op.None?
    ensures Execute(c, sys, StagesOf(now, n)) == sys
  {
    hide Advance;
    if n > 0 {
      assert StagesOf(now, n)[1..] == StagesOf(now, n - 1);
      assert Next(c, sys, TrustStage(now)) == sys;
      IdleStages(c, sys, now, n - 1);
    }
  }

  /** What `n` stages leave: the trust state and the flight of the sequential call, and the quote on
      record if they issued the draft. */
  ghost predicate AfterStages(c: Config, sys: System, approval: Approval, f: Flight, now: Time, n: nat, after: System) {
    var last := Stages(c.setup.controls, sys.trust, f, now, n);
    var issued := f.call.key !in sys.trust.payments && f.call.key in last.0.payments;
    after == sys.(
      trust := last.0, op := if last.1.Raised? then None else Some(Purchasing(approval, last.1)),
      winners := if issued then sys.winners[f.call.key := approval.quoteId] else sys.winners)
  }

  /** A stage issues a draft exactly when it is the one that takes it. */
  lemma StageIssues(k: Controls, ts: TrustState, f: Flight, now: Time)
    ensures var next := Advance(k, ts, f, now);
            && next.1.call == f.call
            && (f.call.key in next.0.payments <==> f.call.key in ts.payments || f.Cleared?)
  {
    hide ChecksOf, Policies;
  }

  lemma {:induction false} StagesKeepKey(k: Controls, ts: TrustState, f: Flight, now: Time, n: nat)
    requires f.call.key in ts.payments
    ensures f.call.key in Stages(k, ts, f, now, n).0.payments
    decreases n
  {
    hide Advance;
    if n > 0 {
      StageIssues(k, ts, f, now);
      var next := Advance(k, ts, f, now);
      StagesKeepKey(k, next.0, next.1, now, n - 1);
    }
  }

  lemma {:induction false} StagesFollow(c: Config, sys: System, approval: Approval, f: Flight, now: Time, n: nat)
    requires sys.op == Some(Purchasing(approval, f)) && !f.Raised?
    ensures AfterStages(c, sys, approval, f, now, n, Execute(c, sys, StagesOf(now, n)))
    decreases n
  {
    hide Advance;
    if n > 0 {
      var k := c.setup.controls;
      assert StagesOf(now, n)[1..] == StagesOf(now, n - 1);
      var moved := Next(c, sys, TrustStage(now));
      if Ended(f) {
        EndedStays(k, sys.trust, f, now, n);
        EndedStays(k, sys.trust, f, now, n - 1);
        assert moved == sys;
        StagesFollow(c, sys, approval, f, now, n - 1);
      } else {
        var next := Advance(k, sys.trust, f, now);
        StageIssues(k, sys.trust, f, now);
        OneStage(k, sys.trust, f, now, n - 1);
        if next.1.Raised? {
          IdleStages(c, moved, now, n - 1);
        } else {
          StagesFollow(c, moved, approval, next.1, now, n - 1);
          if f.call.key in next.0.payments { StagesKeepKey(k, next.0, next.1, now, n - 1); }
        }
      }
    }
  }

  /******* approve *******/

  lemma OrdersApart(c: Config, sys: System, id: Id, other: Id)
    requires Invariant(c, sys) && id in sys.deals && other in sys.deals && id != other && sys.deals[id].orderId.Some?
    ensures sys.deals[other].orderId != sys.deals[id].orderId
  {
    hide CellHolds;
    RecordedOrderAt(c, sys, id);
    if sys.deals[other].orderId.Some? {
      RecordedOrderAt(c, sys, other);
      assert Apart(sys.trust.payments[id], sys.trust.payments[other]);
    }
  }

  /** The put of an approval, in both worlds. */
  lemma ApprovalPutMatches(c: Config, sys: System, tables: Tables, approval: Approval, call: Call, a: Artifacts,
      now: Time)
    requires Invariant(c, sys) && c.minimumQuotes >= 1
    requires sys.op == Some(Purchasing(approval, Returned(call, a))) && call.deal.dealId == call.key
    requires WellFormed(tables) && Records(tables) == sys.deals
    ensures var updated := ApprovedRecord(approval, call, a, now);
            && SqlPut(tables, updated).Ok? && WellFormed(AfterPut(tables, updated))
            && var after := Next(c, sys, OpPut(now, Stored(AfterPut(tables, updated), call.key)));
            && after.op.None? && after.trust == sys.trust && after.outbox == sys.outbox
            && Records(AfterPut(tables, updated)) == after.deals
  {
    hide Invariant, Records, WellFormed, SqlPut, AfterPut, Stored, Next;
    var updated := ApprovedRecord(approval, call, a, now);
    var kept := Stored(AfterPut(tables, updated), call.key);
    var after := Next(c, sys, OpPut(now, kept));
    NextKeeps(c, sys, OpPut(now, kept));
    ReturnedIsPut(c, sys, approval, call, a, now, kept);
    forall id | id in sys.deals && id != call.key ensures sys.deals[id].orderId != updated.orderId {
      OrdersApart(c, after, call.key, id);
      assert after.deals[id] == sys.deals[id];
    }
    PutMatches(tables, sys.deals, updated);
  }

  function ApproveSteps(id: Id, approval: Approval, now: Time, kept: seq<Event>): seq<Step> {
    [BeginApprove(id, approval, now)] + StagesOf(now, 5) + [OpPut(now, kept)]
  }

  lemma ApproveStepsAre(c: Config, sys: System, id: Id, approval: Approval, now: Time, kept: seq<Event>)
    ensures Execute(c, sys, ApproveSteps(id, approval, now, kept))
         == Next(c, Execute(c, Next(c, sys, BeginApprove(id, approval, now)), StagesOf(now, 5)), OpPut(now, kept))
  {
    hide Next;
    ExecuteConcat(c, sys, [BeginApprove(id, approval, now)] + StagesOf(now, 5), [OpPut(now, kept)]);
    ExecuteConcat(c, sys, [BeginApprove(id, approval, now)], StagesOf(now, 5));
    ExecuteOne(c, sys, BeginApprove(id, approval, now));
    ExecuteOne(c, Execute(c, Next(c, sys, BeginApprove(id, approval, now)), StagesOf(now, 5)), OpPut(now, kept));
  }

  /** `approve`, undisturbed, is a run of the machine: the same record, ledger, maps and outbox. */
  lemma ApproveIsRun(c: Config, sys: System, st: ServiceState, id: Id, approval: Approval, now: Time)
    requires Invariant(c, sys) && c.minimumQuotes >= 1 && Matches(sys, st)
    ensures var done := ApproveStep(c.setup, st, id, approval, now).0;
            Matches(Execute(c, sys, ApproveSteps(id, approval, now, Stored(done.tables, id))), done)
  {
    hide Invariant, Process, StartApproval, SqlPut, AfterPut, Stored, Records, WellFormed, Advance;
    var kept := Stored(ApproveStep(c.setup, st, id, approval, now).0.tables, id);
    ApproveStepsAre(c, sys, id, approval, now, kept);
    GetMatches(sys, st, id);
    var begun := Next(c, sys, BeginApprove(id, approval, now));
    if id in sys.deals && StartApproval(c.setup, id, sys.deals[id], approval, now).Calls? {
      PurchaseIsRun(c, sys, st, id, approval, StartApproval(c.setup, id, sys.deals[id], approval, now).call, now);
    } else {
      IdleStages(c, begun, now, 5);
    }
  }

  lemma PurchaseIsRun(c: Config, sys: System, st: ServiceState, id: Id, approval: Approval, call: Call, now: Time)
    requires Invariant(c, sys) && c.minimumQuotes >= 1 && Matches(sys, st) && id in sys.deals
    requires StartApproval(c.setup, id, sys.deals[id], approval, now) == Calls(call)
    ensures var done := PurchaseStep(c.setup, st, id, approval, call, now).0;
            var staged := Execute(c, Next(c, sys, BeginApprove(id, approval, now)), StagesOf(now, 5));
            Matches(Next(c, staged, OpPut(now, Stored(done.tables, id))), done)
  {
    hide Invariant, Process, StartApproval, SqlPut, Stored, Records, WellFormed, Advance, Next, ApprovedRecord;
    CallIsAbout(c, sys, id, approval, now);
    ApprovalLocks(c, sys, id, approval, now);
    var begun := Next(c, sys, BeginApprove(id, approval, now));
    StagesFollow(c, begun, approval, Entered(call), now, 5);
    ProcessIsFiveStages(c.setup.controls, sys.trust, call, now);
    ProcessReturns(c.setup.controls, sys.trust, call, now);
    var staged := Execute(c, begun, StagesOf(now, 5));
    NextKeeps(c, sys, BeginApprove(id, approval, now));
    ExecuteKeeps(c, begun, StagesOf(now, 5));
    var done := Process(c.setup.controls, st.trust, call, now);
    if done.1.Returned? {
      ApprovalPutMatches(c, staged, st.tables, approval, call, done.1.result, now);
    } else {
      IdlePut(c, staged, now, Stored(st.tables, id));
    }
  }

  lemma IdlePut(c: Config, sys: System, now: Time, kept: seq<Event>)
    requires sys.op.None?
    ensures Next(c, sys, OpPut(now, kept)) == sys
  {
  }

  lemma ProcessReturns(k: Controls, ts: TrustState, call: Call, now: Time)
    ensures var f := Process(k, ts, call, now).1; f.call == call && (f.Returned? || f.Raised?)
  {
    hide ChecksOf, Policies;
  }

  lemma CallIsAbout(c: Config, sys: System, id: Id, approval: Approval, now: Time)
    requires Invariant(c, sys) && id in sys.deals && StartApproval(c.setup, id, sys.deals[id], approval, now).Calls?
    ensures var call := StartApproval(c.setup, id, sys.deals[id], approval, now).call;
            call.key == id && call.deal == sys.deals[id] && call.deal.dealId == id
  {
    hide Invariant, BuildSnapshot;
    IdHolds(c, sys, id);
  }

  lemma RunIsReachable(c: Config, sys: System, steps: seq<Step>)
    requires Reachable(c, sys)
    ensures Reachable(c, Execute(c, sys, steps))
  {
    hide Next;
    var before: seq<Step> :| Execute(c, EMPTY_SYSTEM, before) == sys;
    ExecuteConcat(c, EMPTY_SYSTEM, before, steps);
    assert Execute(c, EMPTY_SYSTEM, before + steps) == Execute(c, sys, steps);
  }

  /** Only an approval under way has a draft without cached artifacts. */
  lemma IssuedIsCached(c: Config, sys: System, id: Id)
    requires Invariant(c, sys) && id in sys.deals && sys.op.None?
    ensures id in sys.trust.payments <==> id in sys.trust.purchases
  {
    hide TaskHolds, RecordHolds, OpHolds, Calm, Intact, Made;
    assert CellHolds(c, sys.trust.rows, id, CellOf(sys, id));
  }

  lemma ReturnedIsCached(c: Config, sys: System, approval: Approval, call: Call, a: Artifacts)
    requires Invariant(c, sys) && sys.op == Some(Purchasing(approval, Returned(call, a)))
    ensures call.key in sys.trust.payments && call.key in sys.trust.purchases && sys.trust.purchases[call.key] == a
  {
    hide TaskHolds, RecordHolds, Calm, Intact, Made, GoodCall;
    assert CellHolds(c, sys.trust.rows, call.key, CellOf(sys, call.key));
  }

  /** The state in which the put of an approval finds the process. */
  function Staged(c: Config, sys: System, id: Id, approval: Approval, now: Time): System {
    Execute(c, Next(c, sys, BeginApprove(id, approval, now)), StagesOf(now, 5))
  }

  lemma StagedIs(c: Config, sys: System, id: Id, approval: Approval, now: Time)
    requires Reachable(c, sys) && c.minimumQuotes >= 1 && sys.op.None? && id in sys.deals
    requires StartApproval(c.setup, id, sys.deals[id], approval, now).Calls?
    ensures var call, staged := StartApproval(c.setup, id, sys.deals[id], approval, now).call,
        Staged(c, sys, id, approval, now);
            var done := Process(c.setup.controls, sys.trust, call, now);
            && Reachable(c, staged) && call.key == id
            && staged == Locked(sys, Purchasing(approval, Entered(call))).(
                 trust := done.0, op := if done.1.Raised? then None
                     else Some(Purchasing(approval, done.1)), winners := staged.winners)
            && (done.1.Returned? ==>
                  && id in staged.trust.purchases && staged.trust.purchases[id] == done.1.result
                  && id in staged.winners
                  && (id !in sys.trust.purchases ==> staged.winners[id] == approval.quoteId)
                  && (id in sys.trust.purchases ==> id in sys.winners && staged.winners[id] == sys.winners[id]))
  {
    hide Invariant, Process, StartApproval, Advance, Next, Reachable, Stages;
    var k, call := c.setup.controls, StartApproval(c.setup, id, sys.deals[id], approval, now).call;
    var begun, staged := Next(c, sys, BeginApprove(id, approval, now)), Staged(c, sys, id, approval, now);
    ReachableHolds(c, sys);
    ApprovalLocks(c, sys, id, approval, now);
    ExecuteOne(c, sys, BeginApprove(id, approval, now));
    RunIsReachable(c, sys, [BeginApprove(id, approval, now)]);
    RunIsReachable(c, begun, StagesOf(now, 5));
    StagesFollow(c, begun, approval, Entered(call), now, 5);
    ProcessIsFiveStages(k, sys.trust, call, now);
    ProcessReturns(k, sys.trust, call, now);
    IssuedIsCached(c, sys, id);
    ReachableHolds(c, staged);
    var done := Process(k, sys.trust, call, now);
    if done.1.Returned? {
      ReturnedIsCached(c, staged, approval, call, done.1.result);
      WinnerIsKnown(c, staged, id);
      if id in sys.trust.purchases { WinnerIsKnown(c, sys, id); }
    }
  }

  lemma WinnerIsKnown(c: Config, sys: System, id: Id)
    requires Invariant(c, sys) && id in sys.deals && id in sys.trust.purchases
    ensures id in sys.winners && Delivered(sys.tasks[id])
    ensures Made(c.setup, sys.trust.rows, TermsOf(sys.tasks[id]), sys.winners[id], sys.trust.purchases[id])
  {
    hide TaskHolds, RecordHolds, OpHolds, Calm, Intact, Made;
    assert CellHolds(c, sys.trust.rows, id, CellOf(sys, id));
  }

  /** Progress: in every reachable state, an approval that passes its checks and the mandate's policy, for a
      deal without cached artifacts, succeeds unless the ledger refuses the append or the kill switch is
      on; the deal then requires its signature for the quote approved, the draft was issued for that
      quote, and no other deal changed. */
  lemma ApprovalSucceeds(c: Config, sys: System, id: Id, approval: Approval, now: Time, kept: seq<Event>)
    requires Reachable(c, sys) && c.minimumQuotes >= 1 && sys.op.None? && id in sys.deals && id !in sys.trust.purchases
    requires StartApproval(c.setup, id, sys.deals[id], approval, now).Calls? && !c.setup.controls.killSwitch
    requires MayPurchase(sys.deals[id].intent, sys.deals[id].mandate, now)
    requires var entered := Enter(c.setup.controls, sys.trust,
        StartApproval(c.setup, id, sys.deals[id], approval, now).call, now);
             entered.1.Prepared? ==> AppendIntent(c.setup.controls, entered.0, entered.1).1.Anchored?
    ensures var after := Execute(c, sys, ApproveSteps(id, approval, now, kept));
            && Reachable(c, after) && after.op.None? && id in after.deals
            && after.deals == sys.deals[id := after.deals[id]]
            && after.deals[id].status == PaymentSignatureRequired
            && after.deals[id].selectedQuoteId == Some(approval.quoteId)
            && id in after.trust.purchases && id in after.winners && after.winners[id] == approval.quoteId
            && after.tasks == sys.tasks && after.outbox == sys.outbox && after.unsent == sys.unsent
            && after.lost == sys.lost
            && (Finished(sys, id) ==> after.early == sys.early)
  {
    hide Invariant, Process, StartApproval, Advance, Next, Enter, AppendIntent, ApprovedRecord, Reachable, Policies,
        Made;
    var k, call := c.setup.controls, StartApproval(c.setup, id, sys.deals[id], approval, now).call;
    ReachableHolds(c, sys);
    CallIsAbout(c, sys, id, approval, now);
    CallIsWithin(c, sys, id, approval, now);
    CallIsPrepared(c, sys, id, approval, now);
    CallSucceeds(k, sys.trust, call, now);
    ProcessReturns(k, sys.trust, call, now);
    StagedIs(c, sys, id, approval, now);
    ApproveStepsAre(c, sys, id, approval, now, kept);
    var staged := Staged(c, sys, id, approval, now);
    ExecuteOne(c, staged, OpPut(now, kept));
    RunIsReachable(c, staged, [OpPut(now, kept)]);
    ReturnedIsPut(c, staged, approval, call, Process(k, sys.trust, call, now).1.result, now, kept);
  }

  lemma ReturnedIsPut(c: Config, sys: System, approval: Approval, call: Call, a: Artifacts, now: Time, kept: seq<Event>)
    requires sys.op == Some(Purchasing(approval, Returned(call, a)))
    ensures var after := Next(c, sys, OpPut(now, kept));
            && after == sys.(
                 deals := sys.deals[call.key := ApprovedRecord(approval, call, a, now).(events := kept)],
                 op := None, answers := after.answers)
            && ApprovedRecord(approval, call, a, now).status == PaymentSignatureRequired
            && ApprovedRecord(approval, call, a, now).selectedQuoteId == Some(approval.quoteId)
  {
  }

  /** The cached artifacts of a deal, with the quote they were made for and another one of its quotes. */
  predicate HasPurchase(c: Config, sys: System, id: Id, quoteId: Id) {
    && id in sys.trust.purchases && id in sys.winners && id in sys.tasks && Delivered(sys.tasks[id])
    && Buyable(c.setup, TermsOf(sys.tasks[id]), sys.winners[id]) && Buyable(c.setup, TermsOf(sys.tasks[id]), quoteId)
  }

  predicate AgreementIs(c: Config, sys: System, id: Id, approval: Approval, agrees: bool) {
    if id !in sys.trust.purchases then agrees
    else
      && HasPurchase(c, sys, id, approval.quoteId)
      && var t, w := TermsOf(sys.tasks[id]), sys.winners[id];
      || SnapshotCollision(c.setup, PayloadFor(c.setup, t, approval.quoteId), PayloadFor(c.setup, t, w))
      || (&& (agrees <==> w == approval.quoteId)
          && (agrees <==> sys.trust.purchases[id].purchaseIntent.approvedSnapshotHash == approval.snapshotHash))
  }

  /** The exact condition before the call: in every reachable state, the record that an approval stores
      agrees in all its parts iff the deal has no cached artifacts or those were approved under the same
      snapshot hash; and iff it has none or they were made for the same quote; each unless the payloads of
      the two quotes collide under the snapshot hash. */
  lemma ApprovalAgreesIff(c: Config, sys: System, id: Id, approval: Approval, now: Time, kept: seq<Event>)
    requires Reachable(c, sys) && c.minimumQuotes >= 1 && sys.op.None? && id in sys.deals
    requires StartApproval(c.setup, id, sys.deals[id], approval, now).Calls?
    ensures var after := Execute(c, sys, ApproveSteps(id, approval, now, kept));
            id in after.deals && (Ordered(after.deals[id].status) ==>
              AgreementIs(c, sys, id, approval, Agrees(c.setup, after.trust.rows, after.deals[id])))
  {
    hide Invariant, Process, StartApproval, Advance, Next, ApprovedRecord, Reachable, Made, Agrees, PayloadFor, Buyable;
    ReachableHolds(c, sys);
    StagedIs(c, sys, id, approval, now);
    ApproveStepsAre(c, sys, id, approval, now, kept);
    AwaitsCall(c, sys, id, approval, now);
    ProcessReturns(c.setup.controls, sys.trust, StartApproval(c.setup, id, sys.deals[id], approval, now).call, now);
    var call, staged := StartApproval(c.setup, id, sys.deals[id], approval, now).call,
        Staged(c, sys, id, approval, now);
    var after := Next(c, staged, OpPut(now, kept));
    if id in sys.trust.purchases { CachedForSameHash(c, sys, id, approval, now); }
    if staged.op.Some? && staged.op.value.flight.Returned? {
      ReturnedIsPut(c, staged, approval, call, staged.op.value.flight.result, now, kept);
      ExecuteOne(c, staged, OpPut(now, kept));
      RunIsReachable(c, staged, [OpPut(now, kept)]);
      AgreesIff(c, after, id);
      if id !in sys.trust.purchases { SameQuoteAgrees(c, after, id); }
    } else {
      NoPut(c, staged, now, kept);
    }
  }

  lemma NoPut(c: Config, sys: System, now: Time, kept: seq<Event>)
    requires sys.op.None? || (sys.op.value.Purchasing? && !sys.op.value.flight.Returned?)
    ensures Next(c, sys, OpPut(now, kept)) == sys
  {
  }

  lemma AwaitsCall(c: Config, sys: System, id: Id, approval: Approval, now: Time)
    requires id in sys.deals && StartApproval(c.setup, id, sys.deals[id], approval, now).Calls?
    ensures !Ordered(sys.deals[id].status)
  {
  }

  /** Cached artifacts carry the hash of the quote they were made for, an approval that of its own. */
  lemma CachedForSameHash(c: Config, sys: System, id: Id, approval: Approval, now: Time)
    requires Invariant(c, sys) && id in sys.deals && id in sys.trust.purchases
    requires StartApproval(c.setup, id, sys.deals[id], approval, now).Calls?
    ensures HasPurchase(c, sys, id, approval.quoteId)
    ensures var t, w := TermsOf(sys.tasks[id]), sys.winners[id];
            && (SnapshotCollision(c.setup, PayloadFor(c.setup, t, approval.quoteId), PayloadFor(c.setup, t, w))
                || (w == approval.quoteId <==>
                    sys.trust.purchases[id].purchaseIntent.approvedSnapshotHash == approval.snapshotHash))
  {
    hide CellHolds, TrustInvariant, AnswersHold, FlightHolds, StartApproval;
    WinnerIsKnown(c, sys, id);
    BegunCall(c, sys.trust.rows, id, CellOf(sys, id), approval, now);
    CallIsAbout(c, sys, id, approval, now);
    HashIsOwn(c, sys.deals[id], id, approval, now);
    PayloadNamesQuote(c.setup, TermsOf(sys.tasks[id]), approval.quoteId);
    PayloadNamesQuote(c.setup, TermsOf(sys.tasks[id]), sys.winners[id]);
  }

  lemma HashIsOwn(c: Config, deal: Deal, id: Id, approval: Approval, now: Time)
    requires StartApproval(c.setup, id, deal, approval, now).Calls?
    ensures StartApproval(c.setup, id, deal, approval, now).call.snapshot.snapshotHash == approval.snapshotHash
  {
  }

  lemma CallIsPrepared(c: Config, sys: System, id: Id, approval: Approval, now: Time)
    requires id in sys.deals && StartApproval(c.setup, id, sys.deals[id], approval, now).Calls?
    requires id !in sys.trust.purchases
    requires MayPurchase(sys.deals[id].intent, sys.deals[id].mandate, now)
    ensures Enter(c.setup.controls, sys.trust,
        StartApproval(c.setup, id, sys.deals[id], approval, now).call, now).1.Prepared?
  {
    hide PayloadOf;
    PoliciesExact(sys.deals[id], now);
  }

  lemma CallIsWithin(c: Config, sys: System, id: Id, approval: Approval, now: Time)
    requires Invariant(c, sys) && id in sys.deals && StartApproval(c.setup, id, sys.deals[id], approval, now).Calls?
    requires MayPurchase(sys.deals[id].intent, sys.deals[id].mandate, now)
    ensures TrustInvariant(c.setup.controls, sys.trust)
    ensures WithinMandate(StartApproval(c.setup, id, sys.deals[id], approval, now).call)
  {
    hide CellHolds, StartApproval, TrustInvariant, AnswersHold, FlightHolds;
    BegunCall(c, sys.trust.rows, id, CellOf(sys, id), approval, now);
    CallIsAbout(c, sys, id, approval, now);
    TaskOfCell(c, sys, id);
    ApprovedIsWithinLimits(c, sys.tasks[id], id, sys.deals[id], approval,
        StartApproval(c.setup, id, sys.deals[id], approval, now).call);
  }

  lemma TaskOfCell(c: Config, sys: System, id: Id)
    requires KeysHold(sys) && id in sys.deals && CellHolds(c, sys.trust.rows, id, CellOf(sys, id))
    ensures TaskHolds(c, id, sys.tasks[id], sys.deals[id])
  {
    hide TaskHolds, RecordHolds, CacheHolds, OpHolds, Intact, Calm;
  }

  /******* decide and sign_payment *******/

  function DecideSteps(id: Id, approval: Approval, now: Time, kept: seq<Event>): seq<Step> {
    if approval.kind == Approve then ApproveSteps(id, approval, now, kept)
    else [BeginDecide(id, approval, now)] + [OpPut(now, kept)]
  }

  lemma TwoSteps(c: Config, sys: System, first: Step, second: Step)
    ensures Execute(c, sys, [first] + [second]) == Next(c, Next(c, sys, first), second)
  {
    hide Next;
    ExecuteConcat(c, sys, [first], [second]);
    ExecuteOne(c, sys, first);
    ExecuteOne(c, Next(c, sys, first), second);
  }

  lemma FourSteps(c: Config, sys: System, s1: Step, s2: Step, s3: Step, s4: Step)
    ensures Execute(c, sys, [s1] + ([s2] + [s3] + [s4])) == Next(c, Next(c, Next(c, Next(c, sys, s1), s2), s3), s4)
  {
    hide Next;
    ExecuteConcat(c, sys, [s1], [s2] + [s3] + [s4]);
    ExecuteOne(c, sys, s1);
    ExecuteConcat(c, Next(c, sys, s1), [s2] + [s3], [s4]);
    TwoSteps(c, Next(c, sys, s1), s2, s3);
    ExecuteOne(c, Next(c, Next(c, Next(c, sys, s1), s2), s3), s4);
  }

  /** `decide`, undisturbed, is a run of the machine. */
  lemma DecideIsRun(c: Config, sys: System, st: ServiceState, id: Id, approval: Approval, now: Time)
    requires Invariant(c, sys) && c.minimumQuotes >= 1 && Matches(sys, st)
    ensures var done := DecideStep(c.setup, st, id, approval, now).0;
            Matches(Execute(c, sys, DecideSteps(id, approval, now, Stored(done.tables, id))), done)
  {
    hide Invariant, ApproveStep, DecidedRecord, SqlPut, AfterPut, Stored, Records, WellFormed, Next;
    if approval.kind == Approve {
      ApproveIsRun(c, sys, st, id, approval, now);
    } else {
      TwoSteps(c, sys, BeginDecide(id, approval, now),
          OpPut(now, Stored(DecideStep(c.setup, st, id, approval, now).0.tables, id)));
      GetMatches(sys, st, id);
      DecisionIsRun(c, sys, st, id, approval, now);
    }
  }

  lemma DecisionIsRun(c: Config, sys: System, st: ServiceState, id: Id, approval: Approval, now: Time)
    requires Invariant(c, sys) && Matches(sys, st) && approval.kind != Approve
    requires SqlGet(st.tables, id) == if id in sys.deals then Ok(sys.deals[id]) else Err(DealNotFound)
    ensures var done := DecideStep(c.setup, st, id, approval, now).0;
            Matches(Next(c, Next(c, sys, BeginDecide(id, approval, now)), OpPut(now, Stored(done.tables, id))), done)
  {
    hide Invariant, SqlPut, Stored, Records, WellFormed, SqlGet;
    if id in sys.deals && DecidedRecord(sys.deals[id], approval, now).Ok? {
      var updated := DecidedRecord(sys.deals[id], approval, now).value;
      DecidedOrder(c, sys, id, approval, now);
      PutMatches(st.tables, sys.deals, updated);
    }
  }

  lemma DecidedOrder(c: Config, sys: System, id: Id, approval: Approval, now: Time)
    requires Invariant(c, sys) && id in sys.deals && DecidedRecord(sys.deals[id], approval, now).Ok?
    ensures DecidedRecord(sys.deals[id], approval, now).value.orderId.None?
    ensures DecidedRecord(sys.deals[id], approval, now).value.dealId == id
  {
    hide TaskHolds, CacheHolds, OpHolds, Intact, Calm;
    assert CellHolds(c, sys.trust.rows, id, CellOf(sys, id));
  }

  /** No human step can be taken for a deal with this status. */
  predicate Closed(status: DealStatus) {
    status == Rejected || status == ChangesRequested || status == Completed || status == Failed
  }

  /** The workflow still has a result to put. */
  predicate HasResultToPut(task: Task) {
    task.Running? && !task.phase.Over? && !task.phase.AtFailedPut?
  }

  /** A closed deal that neither a human step nor the result of its workflow can reopen. */
  predicate Standing(sys: System, id: Id) {
    && id in sys.deals && Closed(sys.deals[id].status) && OpOn(sys.op, id).None?
    && id in sys.tasks && sys.tasks[id].Running? && !HasResultToPut(sys.tasks[id])
  }

  ghost predicate StandsIn(sys: System, after: System, id: Id)
    requires id in sys.deals
  {
    Standing(after, id) && (Finished(sys, id) ==> Finished(after, id) && after.deals[id] == sys.deals[id])
  }

  lemma TaskLeavesDecision(c: Config, sys: System, dealId: Id, now: Time, kept: seq<Event>, id: Id)
    requires Standing(sys, id)
    ensures StandsIn(sys, TaskPuts(c, sys, dealId, now, kept), id)
  {
    hide RecordFromState;
  }

  lemma BeginLeavesDecision(c: Config, sys: System, step: Step, id: Id)
    requires Standing(sys, id) && (step.BeginApprove? || step.BeginDecide? || step.BeginSign?)
    requires step.dealId in sys.deals ==> sys.deals[step.dealId].dealId == step.dealId
    ensures step.BeginApprove? ==> StandsIn(sys, ApproveBegun(c, sys, step.dealId, step.approval, step.now), id)
    ensures step.BeginDecide? ==> StandsIn(sys, DecideBegun(sys, step.dealId, step.approval, step.now), id)
    ensures step.BeginSign? ==> StandsIn(sys, SignBegun(sys, step.dealId, step.request, step.now), id)
  {
    hide BuildSnapshot, LifecycleEvents;
  }

  lemma StageLeavesDecision(c: Config, sys: System, now: Time, id: Id)
    requires Standing(sys, id)
    ensures StandsIn(sys, TrustMoved(c, sys, now), id)
  {
    hide Advance;
    if sys.op.Some? && sys.op.value.Purchasing? { StageIssues(c.setup.controls, sys.trust, sys.op.value.flight, now); }
  }

  lemma PutLeavesDecision(sys: System, now: Time, kept: seq<Event>, id: Id)
    requires Standing(sys, id)
    ensures StandsIn(sys, OpPuts(sys, now, kept), id)
  {
    hide ApprovedRecord;
  }

  lemma ReleaseLeavesDecision(sys: System, id: Id)
    requires Standing(sys, id)
    ensures StandsIn(sys, OpFailed(sys), id) && StandsIn(sys, MessagesAppended(sys), id)
    ensures StandsIn(sys, MessagesPublished(sys), id)
  {
    hide AppendAll, MessagesOf, Publish;
  }

  lemma WorkLeavesDecision(c: Config, sys: System, step: Step, id: Id)
    requires Standing(sys, id) && sys.trust.nextId !in sys.deals
    requires step.Submit? || step.StartTask? || step.TaskNode? || step.TaskRaises? || step.TaskPutFails?
    ensures step.Submit? ==> StandsIn(sys, Submitted(sys, step.intent, step.mandate, step.now), id)
    ensures step.StartTask? ==> StandsIn(sys, TaskStarted(sys, step.dealId), id)
    ensures step.TaskNode? ==> StandsIn(sys, NodeRun(c, sys, step.dealId, step.inputs), id)
    ensures step.TaskRaises? ==> StandsIn(sys, TaskRaised(sys, step.dealId), id)
    ensures step.TaskPutFails? ==> StandsIn(sys, TaskEnds(sys, step.dealId), id)
  {
    hide NodeDone;
  }

  lemma DecisionStays(c: Config, sys: System, step: Step, id: Id)
    requires Invariant(c, sys) && id in sys.deals && Standing(sys, id)
    ensures StandsIn(sys, Next(c, sys, step), id)
  {
    hide CellsHold, TrustInvariant, AnswersHold, FlightHolds;
    hide ApproveBegun, DecideBegun, SignBegun, TrustMoved, TaskPuts, OpPuts, OpFailed, MessagesAppended,
        MessagesPublished;
    hide Submitted, TaskStarted, NodeRun, TaskRaised, TaskEnds, StandsIn, Standing;
    match step {
      case TaskPut(dealId, now, kept) => TaskLeavesDecision(c, sys, dealId, now, kept, id);
      case TrustStage(now) => StageLeavesDecision(c, sys, now, id);
      case OpPut(now, kept) => PutLeavesDecision(sys, now, kept, id);
      case OpFails => ReleaseLeavesDecision(sys, id);
      case AppendMessages => ReleaseLeavesDecision(sys, id);
      case PublishMessages => ReleaseLeavesDecision(sys, id);
      case BeginApprove(dealId, _, _) =>
        if dealId in sys.deals { IdHolds(c, sys, dealId); }
        BeginLeavesDecision(c, sys, step, id);
      case BeginDecide(dealId, _, _) =>
        if dealId in sys.deals { IdHolds(c, sys, dealId); }
        BeginLeavesDecision(c, sys, step, id);
      case BeginSign(dealId, _, _) =>
        if dealId in sys.deals { IdHolds(c, sys, dealId); }
        BeginLeavesDecision(c, sys, step, id);
      case _ => WorkLeavesDecision(c, sys, step, id);
    }
  }

  lemma {:induction false} DecisionStands(c: Config, sys: System, steps: seq<Step>, id: Id)
    requires Invariant(c, sys) && Standing(sys, id) && c.minimumQuotes >= 1
    ensures id in Execute(c, sys, steps).deals && StandsIn(sys, Execute(c, sys, steps), id)
    decreases |steps|
  {
    hide Invariant, Next;
    if steps != [] {
      DecisionStays(c, sys, steps[0], id);
      NextKeeps(c, sys, steps[0]);
      DecisionStands(c, Next(c, sys, steps[0]), steps[1..], id);
    }
  }

  lemma DecisionLasts(c: Config, sys: System, steps: seq<Step>, id: Id)
    requires Invariant(c, sys) && Standing(sys, id) && Finished(sys, id) && c.minimumQuotes >= 1
    requires sys.deals[id].status == Rejected || sys.deals[id].status == ChangesRequested
    ensures var later := Execute(c, sys, steps);
            id in later.deals && later.deals[id] == sys.deals[id] && NoPurchase(later.deals[id])
  {
    hide Invariant, NoPurchase;
    DecisionStands(c, sys, steps, id);
    TurnedDownHasNone(c, sys, id);
  }

  /** In every reachable state, a rejection or a request for changes of an awaiting deal is recorded iff the
      authorised person takes it under the displayed hash and the mandate names a required role; that there
      is a displayed hash need not be checked. Once the workflow is over, the decision then stands in every
      later run; one that is refused changes nothing. */
  lemma DecisionTakes(c: Config, sys: System, id: Id, approval: Approval, now: Time, kept: seq<Event>, steps: seq<Step>)
    requires Reachable(c, sys) && c.minimumQuotes >= 1 && sys.op.None? && id in sys.deals
    requires sys.deals[id].status == AwaitingApproval && approval.kind != Approve
    ensures sys.deals[id].approvalSnapshot.Some?
    ensures var deal, after := sys.deals[id], Execute(c, sys, DecideSteps(id, approval, now, kept));
            var taken := && approval.approvedBy == deal.mandate.authorizedBy && deal.mandate.requiredApprovals != {}
                         && approval.snapshotHash == deal.approvalSnapshot.value.snapshotHash;
            && id in after.deals && (!taken ==> after == sys)
            && (taken <==> after.deals[id].status == if approval.kind == Reject then Rejected else ChangesRequested)
            && (taken && Finished(sys, id) ==>
                  var later := Execute(c, after, steps);
                  id in later.deals && later.deals[id] == after.deals[id] && NoPurchase(later.deals[id]))
  {
    hide Invariant, DecidedRecord, Next, Reachable, Standing, Finished;
    ReachableHolds(c, sys);
    HoldsAt(c, sys, id);
    AwaitingShows(c, sys, id);
    DecisionGuards(sys.deals[id], approval, now);
    IdHolds(c, sys, id);
    DecisionRun(c, sys, id, approval, now, kept);
    var after := Execute(c, sys, DecideSteps(id, approval, now, kept));
    ExecuteKeeps(c, sys, DecideSteps(id, approval, now, kept));
    if DecidedRecord(sys.deals[id], approval, now).Ok? && Finished(sys, id) {
      DecisionLasts(c, after, steps, id);
    }
  }

  lemma DecisionGuards(deal: Deal, approval: Approval, now: Time)
    requires deal.status == AwaitingApproval && deal.approvalSnapshot.Some?
    ensures DecidedRecord(deal, approval, now).Ok? <==>
              && approval.approvedBy == deal.mandate.authorizedBy && deal.mandate.requiredApprovals != {}
              && approval.snapshotHash == deal.approvalSnapshot.value.snapshotHash
  {
  }

  lemma DecisionRun(c: Config, sys: System, id: Id, approval: Approval, now: Time, kept: seq<Event>)
    requires sys.op.None? && id in sys.deals && sys.deals[id].dealId == id && approval.kind != Approve
    requires sys.deals[id].status == AwaitingApproval
    ensures var decided, after := DecidedRecord(sys.deals[id], approval, now),
        Execute(c, sys, DecideSteps(id, approval, now, kept));
            && id in after.deals
            && (if decided.Err? then after == sys
                else && after.deals[id] == decided.value.(events := kept)
                     && after.deals[id].status == (if approval.kind == Reject then Rejected else ChangesRequested)
                     && (Finished(sys, id) ==> Standing(after, id) && Finished(after, id)))
  {
    TwoSteps(c, sys, BeginDecide(id, approval, now), OpPut(now, kept));
  }

  lemma TurnedDownHasNone(c: Config, sys: System, id: Id)
    requires Invariant(c, sys) && id in sys.deals
    requires sys.deals[id].status == Rejected || sys.deals[id].status == ChangesRequested
    ensures NoPurchase(sys.deals[id])
  {
    hide TaskHolds, CacheHolds, OpHolds, Calm, Intact;
    assert CellHolds(c, sys.trust.rows, id, CellOf(sys, id));
  }

  function SignSteps(id: Id, request: SignatureRequest, now: Time, kept: seq<Event>): seq<Step> {
    [BeginSign(id, request, now)] + [OpPut(now, kept)] + ([AppendMessages] + [PublishMessages])
  }

  lemma SignStepsAre(c: Config, sys: System, id: Id, request: SignatureRequest, now: Time, kept: seq<Event>)
    ensures Execute(c, sys, SignSteps(id, request, now, kept))
         == Next(c, Next(c, Next(c, Next(c, sys, BeginSign(id, request, now)), OpPut(now, kept)), AppendMessages),
                 PublishMessages)
  {
    hide Next;
    ExecuteConcat(c, sys, [BeginSign(id, request, now)] + [OpPut(now, kept)], [AppendMessages] + [PublishMessages]);
    TwoSteps(c, sys, BeginSign(id, request, now), OpPut(now, kept));
    TwoSteps(c, Next(c, Next(c, sys, BeginSign(id, request, now)), OpPut(now, kept)), AppendMessages, PublishMessages);
  }

  /** `sign_payment`, undisturbed and with the document ids taken from the common supply, is a run of the
      machine; the supply is the only difference it leaves. */
  lemma SignIsRun(c: Config, sys: System, st: ServiceState, id: Id, request: SignatureRequest, now: Time)
    requires Invariant(c, sys) && Matches(sys, st)
    ensures var done := SignStep(st, id, request, sys.trust.nextId, now).0;
            var after := Execute(c, sys, SignSteps(id, request, now, Stored(done.tables, id)));
            Matches(after, done.(trust := after.trust)) && after.trust.(nextId := sys.trust.nextId) == sys.trust
  {
    hide Invariant, StartSignature, SignedRecord, SqlPut, AfterPut, Stored, Records, WellFormed, Next, MessagesOf,
        Publish, AppendAll;
    var kept := Stored(SignStep(st, id, request, sys.trust.nextId, now).0.tables, id);
    SignStepsAre(c, sys, id, request, now, kept);
    GetMatches(sys, st, id);
    if id in sys.deals && StartSignature(id, sys.deals[id], request, now).Signs? {
      SigningIsRun(c, sys, st, id, request, now);
    } else {
      NoSignature(c, sys, id, request, now, kept);
    }
  }

  lemma NoSignature(c: Config, sys: System, id: Id, request: SignatureRequest, now: Time, kept: seq<Event>)
    requires sys.op.None? && (id in sys.deals ==> !StartSignature(id, sys.deals[id], request, now).Signs?)
    ensures Next(c, Next(c, Next(c, Next(c, sys, BeginSign(id, request, now)), OpPut(now, kept)), AppendMessages),
        PublishMessages) == sys
  {
    hide StartSignature, SignedRecord;
  }

  lemma SigningIsRun(c: Config, sys: System, st: ServiceState, id: Id, request: SignatureRequest, now: Time)
    requires Invariant(c, sys) && Matches(sys, st) && id in sys.deals
    requires StartSignature(id, sys.deals[id], request, now).Signs?
    requires SqlGet(st.tables, id) == Ok(sys.deals[id])
    ensures var done := SignStep(st, id, request, sys.trust.nextId, now).0;
            var stored := Next(c, Next(c, sys, BeginSign(id, request, now)), OpPut(now, Stored(done.tables, id)));
            var after := Next(c, Next(c, stored, AppendMessages), PublishMessages);
            Matches(after, done.(trust := after.trust)) && after.trust.(nextId := sys.trust.nextId) == sys.trust
  {
    hide Invariant, StartSignature, SignedRecord, SqlPut, AfterPut, Stored, Records, WellFormed, SqlGet, Publish,
        AppendAll;
    hide DealMessages, Next;
    SignatureState(id, sys.deals[id], request, now);
    IdHolds(c, sys, id);
    var quote := StartSignature(id, sys.deals[id], request, now).quote;
    var signed := SignedRecord(sys.deals[id], request, quote, sys.trust.nextId, now);
    SignedKeepsIds(sys.deals[id], request, quote, sys.trust.nextId, now);
    SignedPut(c, sys, st, id, signed);
    SignedStep(c, sys, id, request, now);
    SignatureSteps(c, Next(c, sys, BeginSign(id, request, now)), signed, quote, now,
        Stored(AfterPut(st.tables, signed), id));
  }

  lemma SignedPut(c: Config, sys: System, st: ServiceState, id: Id, signed: Deal)
    requires Invariant(c, sys) && Matches(sys, st) && id in sys.deals && signed.dealId == id
    requires signed.orderId == sys.deals[id].orderId && signed.orderId.Some?
    ensures SqlPut(st.tables, signed) == Ok(AfterPut(st.tables, signed)) && WellFormed(AfterPut(st.tables, signed))
    ensures Records(AfterPut(st.tables, signed)) ==
        sys.deals[id := signed.(events := Stored(AfterPut(st.tables, signed), id))]
  {
    hide Invariant, SqlPut, AfterPut, Stored, Records, WellFormed;
    forall other | other in sys.deals && other != id ensures sys.deals[other].orderId != signed.orderId {
      OrdersApart(c, sys, id, other);
    }
    PutMatches(st.tables, sys.deals, signed);
    PutIs(st.tables, signed);
  }

  lemma PutIs(tables: Tables, deal: Deal)
    requires SqlPut(tables, deal).Ok?
    ensures SqlPut(tables, deal) == Ok(AfterPut(tables, deal))
  {
  }
}
