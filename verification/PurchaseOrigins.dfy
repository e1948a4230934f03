/** Where payment drafts come from: the call that passed the mandate's policy on its entry. */
module PurchaseOrigins {
  import opened Wrappers
  import opened Domain
  import opened TrustService
  import opened DealService
  import opened PurchaseMachine
  import opened StepRefinement

  /** The call under way has passed its entry and not yet issued a draft. */
  predicate PastEntry(op: Option<Op>, id: Id) {
    && op.Some? && op.value.Purchasing? && op.value.flight.call.key == id
    && (op.value.flight.Prepared? || op.value.flight.Anchored? || op.value.flight.Cleared?)
  }

  /** At this step of the run a call for the deal entered, and all its operations were permitted then. */
  ghost predicate EntersAt(c: Config, steps: seq<Step>, i: nat, id: Id)
    requires i < |steps|
  {
    && steps[i].TrustStage?
    && var op := Execute(c, EMPTY_SYSTEM, steps[..i]).op;
    && op.Some? && op.value.Purchasing? && op.value.flight.Entered?
    && var deal, now := op.value.flight.call.deal, steps[i].now;
    && op.value.flight.call.key == id
    && deal.mandate.Permits(CreatePurchaseIntent, now) && deal.mandate.Permits(AnchorIntent, now)
    && deal.mandate.Permits(OracleProcess, now) && deal.mandate.Permits(CreatePaymentDraft, now)
    && deal.intent.currency == deal.mandate.currency
    && deal.intent.product.category in deal.mandate.allowedCategories
  }

  lemma EntersEarlier(c: Config, steps: seq<Step>, more: seq<Step>, i: nat, id: Id)
    requires i < |steps| && EntersAt(c, steps, i, id)
    ensures EntersAt(c, steps + more, i, id)
  {
    assert (steps + more)[..i] == steps[..i];
  }

  /** A draft or a call past its entry appears in one step only out of a call past its entry, or when a call
      enters that is permitted as a whole. */
  lemma StepOrigin(c: Config, sys: System, step: Step, id: Id)
    ensures var after := Next(c, sys, step);
            id in after.trust.payments && id !in sys.trust.payments ==> PastEntry(sys.op, id)
    ensures var after := Next(c, sys, step);
            PastEntry(after.op, id) && !PastEntry(sys.op, id) ==>
              && step.TrustStage? && sys.op.Some? && sys.op.value.Purchasing? && sys.op.value.flight.Entered?
              && sys.op.value.flight.call.key == id
              && MayPurchase(sys.op.value.flight.call.deal.intent, sys.op.value.flight.call.deal.mandate, step.now)
  {
    hide StartApproval, DecidedRecord, StartSignature, RecordFromState, NodeDone, Advance;
    if step.TrustStage? && sys.op.Some? && sys.op.value.Purchasing? {
      StageOrigin(c.setup.controls, sys.trust, sys.op.value.flight, step.now);
    }
  }

  lemma StageOrigin(k: Controls, ts: TrustState, f: Flight, now: Time)
    ensures var next := Advance(k, ts, f, now);
            && next.1.call == f.call
            && (forall id :: id in next.0.payments && id !in ts.payments ==> f.Cleared? && id == f.call.key)
            && (next.1.Prepared? || next.1.Anchored? || next.1.Cleared? ==>
                  || f.Prepared? || f.Anchored?
                  || (f.Entered? && MayPurchase(f.call.deal.intent, f.call.deal.mandate, now)))
  {
    hide Policies, ChecksOf;
    if f.Entered? && f.call.key !in ts.purchases { EnterIff(k, ts, f.call, now); }
  }

  /** Over every run of the process: a deal has a payment draft only if a call for it entered when the
      mandate permitted to create the intent, to anchor it, to ask the oracle and to create the draft, in the
      need's currency and category. */
  lemma {:induction false} DraftHasOrigin(c: Config, steps: seq<Step>, id: Id) returns (i: nat)
    requires var sys := Execute(c, EMPTY_SYSTEM, steps); id in sys.trust.payments || PastEntry(sys.op, id)
    ensures i < |steps| && EntersAt(c, steps, i, id)
    decreases |steps|
  {
    hide Next;
    if steps == [] {
      assert false;
    } else {
      var n := |steps| - 1;
      var before := Execute(c, EMPTY_SYSTEM, steps[..n]);
      assert steps == steps[..n] + [steps[n]];
      ExecuteConcat(c, EMPTY_SYSTEM, steps[..n], [steps[n]]);
      ExecuteOne(c, before, steps[n]);
      StepOrigin(c, before, steps[n], id);
      if id in before.trust.payments || PastEntry(before.op, id) {
        i := DraftHasOrigin(c, steps[..n], id);
        EntersEarlier(c, steps[..n], [steps[n]], i, id);
      } else {
        i := n;
      }
    }
  }
}
