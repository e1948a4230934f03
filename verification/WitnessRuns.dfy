/** Runs of the process from its start, step by step, to the states in which it fails its promises. Two
    suppliers are asked: "a" answers first, "b" at half its price. */
module WitnessRuns {
  import opened Wrappers
  import opened Domain
  import opened Store
  import opened StoreRefinement
  import opened Ranking
  import opened RankingProperties
  import opened TrustService
  import opened DealService
  import opened Outbox
  import opened PurchaseMachine
  import opened PurchaseInvariant
  import opened PurchaseRuns
  import opened PurchaseTheorems
  import opened PurchaseMessages
  import opened PurchaseVerdicts
  import opened StepRefinement
  import DealProcess
  import Ledger
  import W = Workflow

  const NEED := Intent("customer", Product("sku", "goods", 1), "city", 10, None, "RUB",
    Weights(1.0, 0.0, 0.0, 0.0, 0.0))

  const PERMISSION := Mandate(
    5, "buyer", "ann",
    {SendRfq, FinalOfferAcceptance, CreatePurchaseIntent, AnchorIntent, OracleProcess, CreatePaymentDraft, EdoAction},
    {}, {"goods"}, 100.0, "RUB", 0, 100, None, {"director"}, None, "v1")

  function Offer(quoteId: Id, supplierId: AgentId, price: real): Quote {
    Quote(quoteId, supplierId, supplierId, "sku", 1, price, 0.0, "RUB", 1, 1, 0.0, 1, 100)
  }

  /** Two offers, the second at half the price of the first and in either supplier's name. */
  predicate Pair(one: Quote, two: Quote) {
    && one == Offer(one.quoteId, "a", 20.0)
    && two == Offer(two.quoteId, two.supplierId, 10.0) && (two.supplierId == "a" || two.supplierId == "b")
  }

  /** What the ranking makes of a pair: the cheaper offer first. */
  predicate Offered(first: EvaluatedQuote, second: EvaluatedQuote) {
    first.eligible && second.eligible && Pair(second.quote, first.quote)
  }

  const NOW := Context(NEED, PERMISSION, 0, 0)

  /** Suppliers "a" and "b" are asked; "a" answers with the first quote and "b" with the second. */
  function World(one: Quote, two: Quote): W.Inputs {
    W.Inputs(0, 0, [W.AgentEntry("a", {"goods"}), W.AgentEntry("b", {"goods"})],
             map["a" := W.Quoted(one), "b" := W.Quoted(two)], map["a" := 0.0, "b" := 0.0], "")
  }

  /** Both suppliers are registered and active, and the kill switch is off. */
  predicate Open(c: Config) {
    && c.minimumQuotes == 2 && !c.setup.controls.killSwitch
    && c.setup.controls.suppliers == [SupplierEntry("a", true, "iban-a"), SupplierEntry("b", true, "iban-b")]
  }

  /******* The ranking *******/

  lemma OfferIsEligible(quoteId: Id, supplierId: AgentId, price: real)
    requires 0.0 < price <= 100.0
    ensures Eligible(Offer(quoteId, supplierId, price), NOW) && Offer(quoteId, supplierId, price).TotalCost() == price
    ensures Offer(quoteId, supplierId, price).Valid()
  {
  }

  lemma BothEligible(one: Quote, two: Quote)
    requires Pair(one, two)
    ensures Comparable([one, two], NOW)
    ensures Eligible(one, NOW) && Eligible(two, NOW)
    ensures one.TotalCost() == 20.0 && two.TotalCost() == 10.0
    ensures forall q :: q in [one, two] ==> q.Valid()
  {
    hide Eligible;
    OfferIsEligible(one.quoteId, "a", 20.0);
    OfferIsEligible(two.quoteId, two.supplierId, 10.0);
    EligibleMembers([one, two], NOW);
    assert one in [one, two];
  }

  lemma PairSwapped(items: seq<EvaluatedQuote>, e: seq<EvaluatedQuote>)
    requires |items| == 2 && multiset(items) == multiset(e) && |e| >= 2 && items[0] != e[0]
    ensures items == [e[1], e[0]]
  {
    assert |multiset(items)| == |items| && |multiset(e)| == |e|;
    assert items == [items[0], items[1]] && e == [e[0], e[1]];
    assert items[0] in multiset(e);
    assert multiset(items)[e[0]] >= 1;
  }

  lemma CheaperDominates(one: Quote, two: Quote)
    requires Pair(one, two)
    ensures Dominates(two, one) && NEED.weights.Valid()
  {
    OfferIsEligible(one.quoteId, "a", 20.0);
    OfferIsEligible(two.quoteId, two.supplierId, 10.0);
  }

  lemma EvaluatedLength(quotes: seq<Quote>, ctx: Context)
    requires Comparable(quotes, ctx)
    ensures |Evaluated(quotes, ctx)| == |quotes|
  {
  }

  /** The cheaper offer is recommended and comes first. */
  lemma RankedOffers(one: Quote, two: Quote) returns (first: EvaluatedQuote, second: EvaluatedQuote)
    requires Pair(one, two)
    ensures Compare([one, two], NOW).Ok?
    ensures var c := Compare([one, two], NOW).value;
            c.evaluatedQuotes == [first, second] && c.recommendedQuoteId == Some(two.quoteId)
                && c.rankingVersion == RANKING_VERSION
    ensures Offered(first, second) && first.quote == two && second.quote == one
  {
    hide Eligible, Compare, Evaluated, Ranked, Dominates, Comparable, Quote.TotalCost, Quote.Valid, Weights.Valid;
    var quotes := [one, two];
    BothEligible(one, two);
    CheaperDominates(one, two);
    CompareIsRanked(quotes, NOW);
    RecommendationUndominated(quotes, NOW, quotes[1]);
    EvaluatedWellScored(quotes, NOW);
    EvaluatedLength(quotes, NOW);
    RankedIsTheStableSort(quotes, NOW, []);
    var items, e := Ranked(quotes, NOW), Evaluated(quotes, NOW);
    PairSwapped(items, e);
    first, second := e[1], e[0];
  }

  /******* The workflow *******/

  function Fresh(): Deal {
    NewDraft(0, NEED, PERMISSION, 0)
  }

  function Job(): W.Job {
    W.Job(NEED, PERMISSION, 2)
  }

  function Inputs(one: Quote, two: Quote): Feed {
    (_: W.Node) => World(one, two)
  }

  lemma DiscoversBoth(one: Quote, two: Quote)
    ensures W.Discovered(World(one, two).registry, Job()) == ["a", "b"]
  {
    var registry := World(one, two).registry;
    assert registry[..1] == [registry[0]] && [registry[0]][..0] == [];
    assert W.Serves(registry[0], Job()) && W.Serves(registry[1], Job());
    assert W.Discovered([registry[0]], Job()) == ["a"];
  }

  lemma AsksBoth(one: Quote, two: Quote)
    ensures W.Agents(World(one, two).registry, ["a", "b"]) == ["a", "b"]
  {
    var registry := World(one, two).registry;
    assert registry[0].supplierId == "a" && registry[1].supplierId == "b";
    assert ["a", "b"][..1] == ["a"] && ["a"][..0] == [];
    assert W.Agents(registry, ["a"]) == ["a"];
  }

  lemma BothAnswer(one: Quote, two: Quote)
    ensures W.CollectedQuotes(["a", "b"], World(one, two).replies) == [one, two]
  {
    assert ["a", "b"][..1] == ["a"] && ["a"][..0] == [];
    assert W.CollectedQuotes(["a"], World(one, two).replies) == [one];
  }

  lemma BothTrusted(one: Quote, two: Quote)
    requires Pair(one, two)
    ensures W.Trusted([one, two], World(one, two).risks) == Some([one, two])
  {
    var risks, head := World(one, two).risks, [one];
    assert W.Trusted([], risks) == Some([]);
    assert head[..0] == [] && [] + head == head;
    assert one.(supplierRisk := 0.0) == one && two.(supplierRisk := 0.0) == two;
    assert W.Trusted(head, risks) == Some([] + head);
    assert [one, two][..1] == head && head + [two] == [one, two];
    assert W.Trusted([one, two], risks) == Some(head + [two]);
  }

  /** The state the workflow ends with. */
  function Awaited(first: EvaluatedQuote, second: EvaluatedQuote, events: seq<Event>): W.WorkflowState {
    var ranked := Comparison([first, second], Some(first.quote.quoteId), Narrated(""), RANKING_VERSION);
    W.WorkflowState(["a", "b"], [second.quote, first.quote], Some(ranked), AwaitingApproval, [], events)
  }

  /** The first three nodes. */
  lemma CollectsOffers(one: Quote, two: Quote) returns (ws: W.WorkflowState)
    ensures ws == W.WorkflowState(["a", "b"], [one, two], None, Draft, [], ws.events)
    ensures DealProcess.LastState(Job(), InitialState(Fresh()), W.Validate, Inputs(one, two))
         == DealProcess.LastState(Job(), ws, W.Rank, Inputs(one, two))
    ensures forall s: Setup ::
        DealProcess.Raises(s, Job(), Fresh(), InitialState(Fresh()), Some(W.Validate), Inputs(one, two)) <==>
        DealProcess.Raises(s, Job(), Fresh(), ws, Some(W.Rank), Inputs(one, two))
    ensures var t := W.Run(W.Validate, Job(), InitialState(Fresh()), Inputs(one, two));
            var rest := W.Run(W.Rank, Job(), ws, Inputs(one, two));
            && t.raised == rest.raised && t.nodes == [W.Validate, W.Discover, W.RequestQuotes] + rest.nodes
            && |t.states| == 3 + |rest.states| && t.states[2] == ws
  {
    hide W.Discovered, W.Agents, W.CollectedQuotes, W.RankNode, W.ExplainNode, W.ReplyEvents, W.RfqEvents;
    DiscoversBoth(one, two);
    AsksBoth(one, two);
    BothAnswer(one, two);
    var inputs, s0 := Inputs(one, two), InitialState(Fresh());
    var s1 := W.ValidateNode(Job(), s0, inputs(W.Validate));
    assert W.ValidationErrors(Job(), 0) == [];
    assert s1 == s0.(errors := [], events := s1.events);
    var s2 := W.DiscoverNode(Job(), s1, inputs(W.Discover));
    assert s2 == s1.(supplierIds := ["a", "b"], errors := [], events := s2.events);
    ws := W.RequestNode(Job(), s2, inputs(W.RequestQuotes));
    assert ws == s2.(quotes := [one, two], errors := [], events := ws.events);
    LastUnfolds(s0, W.Validate, inputs, s1, W.Discover);
    LastUnfolds(s1, W.Discover, inputs, s2, W.RequestQuotes);
    LastUnfolds(s2, W.RequestQuotes, inputs, ws, W.Rank);
    W.RunOnto(W.Validate, Job(), s0, inputs, s1, W.Discover);
    W.RunOnto(W.Discover, Job(), s1, inputs, s2, W.RequestQuotes);
    W.RunOnto(W.RequestQuotes, Job(), s2, inputs, ws, W.Rank);
  }

  lemma LastUnfolds(ws: W.WorkflowState, node: W.Node, inputs: Feed, next: W.WorkflowState, target: W.Node)
    requires W.RunNode(node, Job(), ws, inputs(node)) == Some(next) && W.Route(node, next) == Some(target)
    ensures DealProcess.LastState(Job(), ws, node, inputs) == DealProcess.LastState(Job(), next, target, inputs)
    ensures forall s: Setup :: PreviewSnapshot(s, Fresh(), ws.comparison).Ok? ==>
              (DealProcess.Raises(s, Job(), Fresh(), ws, Some(node), inputs)
               <==> DealProcess.Raises(s, Job(), Fresh(), next, Some(target), inputs))
  {
    hide W.RunNode, PreviewSnapshot;
  }

  /** The last three nodes. */
  lemma RanksOffers(c: Config, ws: W.WorkflowState, one: Quote, two: Quote)
      returns (last: W.WorkflowState, first: EvaluatedQuote, second: EvaluatedQuote)
    requires Open(c) && Pair(one, two)
    requires ws == W.WorkflowState(["a", "b"], [one, two], None, Draft, [], ws.events)
    ensures last == DealProcess.LastState(Job(), ws, W.Rank, Inputs(one, two)) == Awaited(first, second, last.events)
    ensures Offered(first, second) && first.quote == two && second.quote == one
    ensures !DealProcess.Raises(c.setup, Job(), Fresh(), ws, Some(W.Rank), Inputs(one, two))
  {
    hide Compare, W.Trusted;
    BothTrusted(one, two);
    first, second := RankedOffers(one, two);
    var inputs := Inputs(one, two);
    var s4 := W.RankNode(Job(), ws, inputs(W.Rank)).value;
    var s5 := W.ExplainNode(s4, inputs(W.Explain)).value;
    last := W.FinalizeNode(s5);
    assert s4 == ws.(comparison := s4.comparison, errors := [], events := s4.events);
    assert last == Awaited(first, second, last.events);
    PreviewIsMade(c, [first, second], s4.comparison, one, two);
    PreviewIsMade(c, [first, second], s5.comparison, one, two);
    LastUnfolds(ws, W.Rank, inputs, s4, W.Explain);
    LastUnfolds(s4, W.Explain, inputs, s5, W.Finalize);
    LastEnds(c.setup, s5, last, inputs);
  }

  lemma LastEnds(s: Setup, ws: W.WorkflowState, last: W.WorkflowState, inputs: Feed)
    requires last == W.FinalizeNode(ws) && PreviewSnapshot(s, Fresh(), ws.comparison).Ok?
    ensures DealProcess.LastState(Job(), ws, W.Finalize, inputs) == last
    ensures !DealProcess.Raises(s, Job(), Fresh(), ws, Some(W.Finalize), inputs)
  {
    hide PreviewSnapshot;
    assert DealProcess.Raises(s, Job(), Fresh(), last, None, inputs)
        <==> PreviewSnapshot(s, Fresh(), last.comparison).Err?;
  }

  lemma PreviewIsMade(c: Config, items: seq<EvaluatedQuote>, comparison: Option<Comparison>, one: Quote, two: Quote)
    requires Open(c) && Pair(one, two) && comparison.Some? && comparison.value.evaluatedQuotes == items && |items| == 2
    requires comparison.value.recommendedQuoteId == Some(two.quoteId)
    requires items[0].quote == two
    ensures PreviewSnapshot(c.setup, Fresh(), comparison).Ok?
  {
    SuppliersAreFound(c);
  }

  lemma SuppliersAreFound(c: Config)
    requires Open(c)
    ensures FindSupplier(c.setup.controls.suppliers, "a") == Ok(SupplierEntry("a", true, "iban-a"))
    ensures FindSupplier(c.setup.controls.suppliers, "b") == Ok(SupplierEntry("b", true, "iban-b"))
  {
    var suppliers := c.setup.controls.suppliers;
    assert FindSupplier(suppliers[1..], "b") == Ok(suppliers[1]);
  }

  /******* A workflow that raises *******/

  const FREE := Offer(1, "a", 0.0)
  const PRICED := Offer(2, "b", 10.0)

  lemma FreeIsEligible()
    ensures Eligible(FREE, NOW) && Compare([FREE, PRICED], NOW) == Err(DivisionUndefined)
    ensures W.Trusted([FREE, PRICED], World(FREE, PRICED).risks) == Some([FREE, PRICED])
  {
    hide Compare;
    assert FREE.TotalCost() == 0.0;
    RaisesIff([FREE, PRICED], NOW);
    assert FREE in [FREE, PRICED];
    assert Compare([FREE, PRICED], NOW).error == DivisionUndefined;
    FreeIsTrusted();
  }

  lemma FreeIsTrusted()
    ensures W.Trusted([FREE, PRICED], World(FREE, PRICED).risks) == Some([FREE, PRICED])
  {
    var risks, head := World(FREE, PRICED).risks, [FREE];
    assert W.Trusted([], risks) == Some([]);
    assert head[..0] == [] && [] + head == head;
    assert FREE.(supplierRisk := 0.0) == FREE && PRICED.(supplierRisk := 0.0) == PRICED;
    assert W.Trusted(head, risks) == Some([] + head);
    assert [FREE, PRICED][..1] == head && head + [PRICED] == [FREE, PRICED];
    assert W.Trusted([FREE, PRICED], risks) == Some(head + [PRICED]);
  }

  /** A whole workflow task in which "a" answers with a free offer and "b" with a priced one: three nodes
      run, the rank node raises on the division, the draft is put as failed, and the two stores, which held
      the same draft, disagree. */
  lemma FreeOfferRun(s: Setup, clock: Clock)
    ensures Compare([FREE, PRICED], NOW) == Err(DivisionUndefined)
    ensures var t := W.Run(W.Validate, Job(), InitialState(Fresh()), Inputs(FREE, PRICED));
            && t.raised && t.nodes == [W.Validate, W.Discover, W.RequestQuotes]
            && |t.states| == 3 && t.states[2].quotes == [FREE, PRICED] && t.states[2].errors == []
    ensures var m, tables := MemoryPut(EMPTY_MEMORY, Fresh()), AfterPut(EMPTY_TABLES, Fresh());
            var start := InitialState(Fresh());
            var puts := ProcessPuts(s, Job(), Fresh(), start, Some(W.Validate), Inputs(FREE, PRICED), clock, 0);
            && DealProcess.Raises(s, Job(), Fresh(), start, Some(W.Validate), Inputs(FREE, PRICED))
            && Simulates(m, tables) && !AllExtend(m, puts)
            && !Simulates(RunMemory(m, puts), RunSql(tables, puts))
  {
    hide Compare, Simulates, AllExtend, MemoryPut, AfterPut, ProcessPuts, RunMemory, RunSql, W.Run;
    FreeIsEligible();
    var ws := CollectsOffers(FREE, PRICED);
    RaisesAtRank(s, ws);
    var m, tables := MemoryPut(EMPTY_MEMORY, Fresh()), AfterPut(EMPTY_TABLES, Fresh());
    FreshIsStored();
    DealProcess.PutsExtendIff(s, Job(), Fresh(), Inputs(FREE, PRICED), clock, m);
    DealProcess.TaskAgreesIff(s, Job(), Fresh(), Inputs(FREE, PRICED), clock, m, tables);
  }

  lemma RaisesAtRank(s: Setup, ws: W.WorkflowState)
    requires ws == W.WorkflowState(["a", "b"], [FREE, PRICED], None, Draft, [], ws.events)
    ensures W.Run(W.Rank, Job(), ws, Inputs(FREE, PRICED)) == W.Trace([], [], true)
    ensures DealProcess.Raises(s, Job(), Fresh(), ws, Some(W.Rank), Inputs(FREE, PRICED))
    ensures PreviewSnapshot(s, Fresh(), Fresh().comparison).Ok?
  {
    hide Compare, W.Trusted;
    FreeIsEligible();
    assert W.RankContext(Job(), World(FREE, PRICED)) == NOW;
    assert W.RankNode(Job(), ws, World(FREE, PRICED)).None?;
  }

  lemma FreshIsStored()
    ensures var m := MemoryPut(EMPTY_MEMORY, Fresh());
            && Simulates(m, AfterPut(EMPTY_TABLES, Fresh())) && 0 in m.deals && m.deals[0] == Fresh()
  {
    hide Simulates, AfterPut;
    EmptyWellFormed();
    PutSimulates(EMPTY_MEMORY, EMPTY_TABLES, Fresh());
  }

  /******* Up to the approval *******/

  /** The deal awaits approval of the two ranked offers, and nothing was ever issued. */
  predicate Shown(sys: System, first: EvaluatedQuote, second: EvaluatedQuote) {
    && sys.op.None? && 0 in sys.deals && 0 in sys.tasks && sys.trust == EMPTY_TRUST.(nextId := 1) && sys.outbox == []
    && sys.unsent == {} && sys.lost == {} && sys.tasks[0].Running? && sys.tasks[0].draft == Fresh()
    && sys.tasks[0].ws == Awaited(first, second, sys.tasks[0].ws.events)
    && IsShown(sys.deals[0], first, second)
  }

  predicate IsShown(deal: Deal, first: EvaluatedQuote, second: EvaluatedQuote) {
    && deal.dealId == 0 && deal.status == AwaitingApproval && deal.intent == NEED && deal.mandate == PERMISSION
    && deal.quotes == [second.quote, first.quote]
    && deal.comparison == Some(Comparison([first, second], Some(first.quote.quoteId), Narrated(""), RANKING_VERSION))
    && Offered(first, second)
  }

  lemma Submitting(c: Config) returns (steps: seq<Step>)
    ensures Execute(c, EMPTY_SYSTEM, steps) == System(
              map[0 := Fresh()], map[0 := Running(Fresh(), InitialState(Fresh()), AtPut(Some(W.Validate)))],
              EMPTY_TRUST.(nextId := 1), [], None, [], map[], {}, {}, {}, {})
  {
    steps := [Submit(NEED, PERMISSION, 0)] + [StartTask(0)];
    TwoSteps(c, EMPTY_SYSTEM, Submit(NEED, PERMISSION, 0), StartTask(0));
  }

  /** A reachable deal that awaits approval, with the last put of its workflow still to come. */
  lemma AwaitingRun(c: Config, one: Quote, two: Quote)
    returns (sys: System, first: EvaluatedQuote, second: EvaluatedQuote)
    requires Open(c) && Pair(one, two)
    ensures first.quote == two && second.quote == one
    ensures Reachable(c, sys) && Shown(sys, first, second) && sys.tasks[0].phase == AtLastPut && sys.early == {}
    ensures RecordFromState(c.setup, Fresh(), sys.tasks[0].ws, 0).Ok?
  {
    hide Next, RecordFromState, W.RunNode, DealProcess.LastState, DealProcess.Raises;
    var steps := Submitting(c);
    var start := Execute(c, EMPTY_SYSTEM, steps);
    var ws := CollectsOffers(one, two);
    var last, ea, eb := RanksOffers(c, ws, one, two);
    first, second := ea, eb;
    assert JobOf(Fresh(), c.minimumQuotes) == Job();
    var loop := DealProcess.LoopRuns(c, start, Fresh(), InitialState(Fresh()), W.Validate, Inputs(one, two));
    ExecuteConcat(c, EMPTY_SYSTEM, steps, loop);
    sys := Execute(c, start, loop);
    assert Execute(c, EMPTY_SYSTEM, steps + loop) == sys;
    DealProcess.RecordKeeps(c.setup, Fresh(), last, 0);
    RecordIsShown(c, last, 0, first, second);
  }

  lemma RecordIsShown(c: Config, ws: W.WorkflowState, now: Time, first: EvaluatedQuote,
      second: EvaluatedQuote)
    requires RecordFromState(c.setup, Fresh(), ws, now).Ok? && ws == Awaited(first, second, ws.events)
    requires Offered(first, second)
    ensures IsShown(RecordFromState(c.setup, Fresh(), ws, now).value, first, second)
  {
    hide PreviewSnapshot;
  }

  /** The last put of the workflow shows the deal again, whatever was stored before. */
  lemma LastPutShows(c: Config, sys: System, first: EvaluatedQuote, second: EvaluatedQuote)
    requires 0 in sys.deals && 0 in sys.tasks && sys.tasks[0].Running? && sys.tasks[0].phase == AtLastPut
    requires sys.tasks[0].draft == Fresh() && sys.tasks[0].ws == Awaited(first, second, sys.tasks[0].ws.events)
    requires Offered(first, second)
    requires RecordFromState(c.setup, Fresh(), sys.tasks[0].ws, 0).Ok?
    ensures var after := Next(c, sys, TaskPut(0, 0, []));
            && after == sys.(deals := after.deals, tasks := after.tasks) && 0 in after.deals && Finished(after, 0)
            && after.tasks == sys.tasks[0 := sys.tasks[0].(phase := Over)]
            && IsShown(after.deals[0], first, second)
  {
    hide RecordFromState;
    RecordIsShown(c, sys.tasks[0].ws, 0, first, second);
  }

  /** An approval of one of the two by the right person under the right hash is accepted. */
  lemma ApprovalOf(c: Config, deal: Deal, first: EvaluatedQuote, second: EvaluatedQuote,
      item: EvaluatedQuote)
    returns (approval: Approval)
    requires Open(c) && IsShown(deal, first, second)
    requires item == first || (item == second && first.quote.quoteId != second.quote.quoteId)
    ensures approval.quoteId == item.quote.quoteId && StartApproval(c.setup, 0, deal, approval, 0).Calls?
    ensures StartApproval(c.setup, 0, deal, approval, 0).call.quote == item.quote
    ensures StartApproval(c.setup, 0, deal, approval, 0).call.deal == deal
    ensures FindEvaluated([first, second], approval.quoteId) == Some(item)
  {
    hide PayloadOf;
    SuppliersAreFound(c);
    assert [first, second][1..] == [second] && FindEvaluated([second], second.quote.quoteId) == Some(second);
    var binding := FindSupplier(c.setup.controls.suppliers, item.quote.supplierId).value.bankBindingHash;
    approval := Approval(item.quote.quoteId, "ann",
        c.setup.snapshotHash(PayloadOf(0, "v1", RANKING_VERSION, item, binding)), Approve);
  }

  lemma NothingStopsIt(c: Config, sys: System, call: Call)
    requires Open(c) && sys.trust == EMPTY_TRUST.(nextId := 1) && call.deal.mandate == PERMISSION
    requires call.deal.intent == NEED
    ensures MayPurchase(call.deal.intent, call.deal.mandate, 0)
    ensures var entered := Enter(c.setup.controls, sys.trust, call, 0);
            entered.1.Prepared? ==> AppendIntent(c.setup.controls, entered.0, entered.1).1.Anchored?
  {
    hide Policies;
    assert Ledger.ChainOf([], call.deal.dealId) == [];
  }

  /** The approval of a shown offer goes through. */
  lemma Approves(c: Config, sys: System, first: EvaluatedQuote, second: EvaluatedQuote,
      item: EvaluatedQuote)
    returns (approval: Approval, after: System)
    requires Open(c) && Reachable(c, sys) && Shown(sys, first, second)
    requires item == first || (item == second && first.quote.quoteId != second.quote.quoteId)
    ensures Reachable(c, after) && after.op.None? && 0 in after.deals
    ensures after.deals[0].status == PaymentSignatureRequired
    ensures approval.quoteId == item.quote.quoteId && FindEvaluated([first, second], approval.quoteId) == Some(item)
    ensures after.deals[0].selectedQuoteId == Some(approval.quoteId)
    ensures 0 in after.trust.purchases && 0 in after.winners && after.winners[0] == approval.quoteId
    ensures after.tasks == sys.tasks && after.outbox == [] && after.unsent == {} && after.lost == {}
        && (Finished(sys, 0) ==> after.early == sys.early)
    ensures after == Execute(c, sys, ApproveSteps(0, approval, 0, []))
  {
    hide StartApproval, Reachable, Enter, AppendIntent, Execute;
    approval := ApprovalOf(c, sys.deals[0], first, second, item);
    NothingStopsIt(c, sys, StartApproval(c.setup, 0, sys.deals[0], approval, 0).call);
    ApprovalSucceeds(c, sys, 0, approval, 0, []);
    after := Execute(c, sys, ApproveSteps(0, approval, 0, []));
  }

  /** What the records of an ordered deal say about the suppliers of the two offers. */
  lemma OrderedFrom(c: Config, sys: System, first: EvaluatedQuote, second: EvaluatedQuote)
    requires Reachable(c, sys) && c.minimumQuotes >= 1 && sys.op.None? && 0 in sys.deals && 0 in sys.tasks
    requires Ordered(sys.deals[0].status)
    requires sys.tasks[0].Running? && sys.tasks[0].ws == Awaited(first, second, sys.tasks[0].ws.events)
    ensures sys.deals[0].quotes == [second.quote, first.quote] && sys.deals[0].supplierIds == ["a", "b"]
    ensures sys.deals[0].selectedQuoteId.Some?
    ensures sys.deals[0].order.Some? && sys.deals[0].paymentDraft.Some?
    ensures var item := FindEvaluated([first, second], sys.deals[0].selectedQuoteId.value);
            item.Some? && sys.deals[0].order.value.supplierId == item.value.quote.supplierId
  {
    hide CellHolds, TaskHolds, RecordHolds, CacheHolds, Made;
    HoldsAt(c, sys, 0);
    PartsHold(c, sys.trust.rows, 0, CellOf(sys, 0));
    OrderedParts(c.setup, sys.trust.rows, CellOf(sys, 0));
  }

  /** The artifacts of a deal pay the supplier of the quote they were made for. */
  lemma PaysWinner(c: Config, sys: System, first: EvaluatedQuote, second: EvaluatedQuote)
    requires Reachable(c, sys) && c.minimumQuotes >= 1 && 0 in sys.deals && 0 in sys.trust.purchases && 0 in sys.tasks
    requires sys.tasks[0].Running? && sys.tasks[0].ws == Awaited(first, second, sys.tasks[0].ws.events)
    ensures 0 in sys.winners
    ensures var item := FindEvaluated([first, second], sys.winners[0]);
            && item.Some? && sys.trust.purchases[0].purchaseIntent.supplierAgentId == item.value.quote.supplierId
            && sys.trust.purchases[0].paymentDraft.payeeSupplierId == item.value.quote.supplierId
            && sys.trust.purchases[0].paymentDraft.amount == item.value.quote.TotalCost()
  {
    hide Invariant, PayloadOf;
    ReachableHolds(c, sys);
    WinnerIsKnown(c, sys, 0);
  }

  /******* The failing states *******/

  const FROM_A := Offer(1, "a", 20.0)
  const FROM_B := Offer(2, "b", 10.0)

  /** "a" is approved while the last put of the workflow is still to come. */
  lemma EarlyRun(c: Config) returns (sys: System, first: EvaluatedQuote, second: EvaluatedQuote)
    requires Open(c)
    ensures Reachable(c, sys) && sys.op.None? && sys.outbox == [] && AtWork(sys, 0)
    ensures first.quote == FROM_B && second.quote == FROM_A && Offered(first, second)
    ensures sys.tasks[0].phase == AtLastPut && sys.tasks[0].draft == Fresh()
    ensures sys.tasks[0].ws == Awaited(first, second, sys.tasks[0].ws.events)
    ensures RecordFromState(c.setup, Fresh(), sys.tasks[0].ws, 0).Ok?
    ensures sys.deals[0].status == PaymentSignatureRequired && sys.deals[0].selectedQuoteId == Some(FROM_A.quoteId)
    ensures 0 in sys.trust.purchases
    ensures sys.trust.purchases[0].purchaseIntent.supplierAgentId == "a"
    ensures sys.trust.purchases[0].paymentDraft.payeeSupplierId == "a"
  {
    hide Reachable, Execute, RecordFromState;
    var shown, ea, eb := AwaitingRun(c, FROM_A, FROM_B);
    first, second := ea, eb;
    var _, after := Approves(c, shown, first, second, second);
    sys := after;
    PaysWinner(c, sys, first, second);
  }

  /** From the start of the process to a record that orders from one supplier and pays another: "a" is
      approved while the last put of the workflow is still to come, that put shows the deal again, and "b"
      is approved. */
  lemma MixedRecordRun(c: Config) returns (early: System, steps: seq<Step>)
    requires Open(c)
    ensures Reachable(c, early) && 0 in early.deals && early.deals[0].status == PaymentSignatureRequired
    ensures 0 in early.tasks && early.tasks[0].Running? && early.tasks[0].phase == AtLastPut
    ensures var last := Execute(c, early, steps);
            && Reachable(c, last) && 0 in last.deals && last.deals[0].status == PaymentSignatureRequired
            && last.deals[0].order.Some? && last.deals[0].order.value.supplierId == "b"
            && last.deals[0].paymentDraft.Some? && last.deals[0].paymentDraft.value.payeeSupplierId == "a"
            && !Agrees(c.setup, last.trust.rows, last.deals[0])
  {
    hide Reachable, Next, Execute, StartApproval, Agrees, RecordFromState, ApprovedRecord;
    var sys, first, second := EarlyRun(c);
    early := sys;
    LastPutShows(c, early, first, second);
    var put := TaskPut(0, 0, []);
    var again := Next(c, early, put);
    var approval := ApprovalOf(c, again.deals[0], first, second, first);
    SecondApprovalIsCached(c, again, 0, approval, 0, []);
    var call := StartApproval(c.setup, 0, again.deals[0], approval, 0).call;
    RecordIsMixed(approval, call, again.trust.purchases[0]);
    steps := [put] + ([BeginApprove(0, approval, 0)] + [TrustStage(0)] + [OpPut(0, [])]);
    FourSteps(c, early, put, BeginApprove(0, approval, 0), TrustStage(0), OpPut(0, []));
    RunIsReachable(c, early, steps);
  }

  lemma RecordIsMixed(approval: Approval, call: Call, a: Artifacts)
    ensures var deal := ApprovedRecord(approval, call, a, 0);
            && deal.status == PaymentSignatureRequired
            && deal.order.Some? && deal.order.value.supplierId == call.quote.supplierId
            && deal.paymentDraft == Some(a.paymentDraft)
  {
  }

  /** An ordered deal at the last put of its workflow is approved again, for "b", and signed again. */
  lemma SignedAgain(c: Config, sys: System, first: EvaluatedQuote, second: EvaluatedQuote, request: SignatureRequest)
    returns (steps: seq<Step>)
    requires Open(c) && Reachable(c, sys) && sys.op.None? && AtWork(sys, 0)
    requires first.quote == FROM_B && second.quote == FROM_A && Offered(first, second)
    requires sys.tasks[0].phase == AtLastPut && sys.tasks[0].draft == Fresh()
    requires sys.tasks[0].ws == Awaited(first, second, sys.tasks[0].ws.events)
    requires RecordFromState(c.setup, Fresh(), sys.tasks[0].ws, 0).Ok?
    requires Ordered(sys.deals[0].status) && sys.deals[0].mandate == PERMISSION
    requires request.signedBy == "ann" && request.confirmation
    requires Some(request.paymentDraftId) == sys.deals[0].paymentDraftId
    ensures sys.deals[0].paymentDraft.Some?
    ensures var after := Execute(c, sys, steps);
            && Reachable(c, after) && after.op.None? && 0 in after.deals && after.deals[0].status == Completed
            && after.deals[0].order.Some? && after.deals[0].order.value.supplierId == "b"
            && after.deals[0].paymentDraft == Some(sys.deals[0].paymentDraft.value.(status := Signed))
            && HasWinner(after.deals[0]) && AllPublished(after.outbox, 0)
            && (forall s :: HasKey(after.outbox, AwardKey(0, s)) <==> HasKey(sys.outbox, AwardKey(0, s)) || s == "b")
            && (AllHeard(after.outbox, 0, after.deals[0]) <==>
                forall s :: HasKey(sys.outbox, AwardKey(0, s)) ==> s == "b")
  {
    hide Reachable, Execute, StartApproval, RecordFromState, AllPublished, AllHeard, HasKey;
    RecordIsShown(c, sys.tasks[0].ws, 0, first, second);
    var approval := ApprovalOf(c, ShownAgain(c, sys, 0, 0, []), first, second, first);
    SecondSignature(c, sys, 0, approval, request, 0, []);
    steps := AgainSteps(0, approval, request, 0, []);
    var after := Execute(c, sys, steps);
    AgainKeepsTask(c, sys, 0, approval, request);
    OrderedFrom(c, after, first, second);
    assert FindQuote([FROM_A, FROM_B][1..], 2) == Some(FROM_B);
  }

  /** The deals' workflow is over after that, with the same result. */
  lemma AgainKeepsTask(c: Config, sys: System, id: Id, approval: Approval, request: SignatureRequest)
    requires id in sys.tasks && Delivered(sys.tasks[id]) && Reachable(c, sys) && c.minimumQuotes >= 1
    ensures var after := Execute(c, sys, AgainSteps(id, approval, request, 0, []));
            id in after.tasks && Delivered(after.tasks[id]) && after.tasks[id].ws == sys.tasks[id].ws
  {
    hide Invariant, Reachable;
    ReachableHolds(c, sys);
    RunKeepsResult(c, sys, AgainSteps(id, approval, request, 0, []), id);
  }

  /** From the start to one deal with two awards: "a" is approved and signed while the last put of the
      workflow is still to come, that put shows the deal again, and "b" is approved and signed. Both are
      told that they won, and only "a" is paid. */
  lemma DoubleAwardRun(c: Config) returns (sys: System)
    requires Open(c)
    ensures Reachable(c, sys) && sys.op.None? && 0 in sys.deals && sys.deals[0].status == Completed
    ensures HasKey(sys.outbox, AwardKey(0, "a")) && HasKey(sys.outbox, AwardKey(0, "b")) && AllPublished(sys.outbox, 0)
    ensures HasWinner(sys.deals[0]) && !AllHeard(sys.outbox, 0, sys.deals[0])
    ensures sys.deals[0].order.Some? && sys.deals[0].order.value.supplierId == "b"
    ensures sys.deals[0].paymentDraft.Some? && sys.deals[0].paymentDraft.value.payeeSupplierId == "a"
  {
    hide Reachable, Execute, StartSignature, RecordFromState, AllPublished, AllHeard;
    var early, first, second := EarlyRun(c);
    var request := SigningRequest(c, early);
    SignatureHeardIff(c, early, 0, request, 0, []);
    var signed := Execute(c, early, SignSteps(0, request, 0, []));
    var a := OrderedIsCached(c, early, 0);
    OrderedFrom(c, signed, first, second);
    assert HasKey(signed.outbox, AwardKey(0, "a"));
    var steps := SignedAgain(c, signed, first, second, request);
    sys := Execute(c, signed, steps);
  }

  /** From the start to messages that were not appended and yet the deal sends some later: the append after
      the signature for "a" fails while the last put of the workflow is still to come, that put shows the
      deal again, and "b" is approved and signed. */
  lemma ResentRun(c: Config) returns (sys: System, steps: seq<Step>)
    requires Open(c)
    ensures Reachable(c, sys) && sys.op.Some? && sys.op.value.Messaging? && sys.op.value.deal.dealId == 0
    ensures 0 in sys.tasks && HasResultToPut(sys.tasks[0]) && 0 in sys.deals && sys.deals[0].status == Completed
    ensures Absent(sys.outbox, 0)
    ensures var after := Execute(c, Next(c, sys, OpFails), steps);
            && Reachable(c, after) && 0 in after.deals && after.deals[0].status == Completed
            && HasKey(after.outbox, AwardKey(0, "b")) && !SameMessages(sys.outbox, after.outbox, 0)
  {
    hide Reachable, Execute, StartSignature, RecordFromState, AllPublished, AllHeard, Next, Absent;
    var early, first, second := EarlyRun(c);
    var request := SigningRequest(c, early);
    sys := SignedUpTo(c, early, request);
    FailureReleases(c, sys);
    var failed := Next(c, sys, OpFails);
    ExecuteOne(c, sys, OpFails);
    RunIsReachable(c, sys, [OpFails]);
    steps := SignedAgain(c, failed, first, second, request);
    EmptyIsAbsent(0);
    AwardIsNew(c, Execute(c, failed, steps), 0, "b");
  }

  lemma EmptyIsAbsent(id: Id)
    ensures Absent([], id)
  {
  }

  lemma AwardIsNew(c: Config, after: System, id: Id, s: AgentId)
    requires Reachable(c, after) && c.minimumQuotes >= 1 && HasKey(after.outbox, AwardKey(id, s))
    ensures !SameMessages([], after.outbox, id)
  {
    hide Invariant, Reachable;
    ReachableMessages(c, after);
    var i :| 0 <= i < |after.outbox| && after.outbox[i].key == AwardKey(id, s);
    assert KeyMatches(after.outbox[i]);
    assert after.outbox[i] in after.outbox && after.outbox[i].aggregateId == id;
  }

  /** From the start to a deal whose signature instructs the wrong supplier: both answer under one quote id,
      the order is from "b", and the lookup finds the quote of "a", which came in first. */
  lemma DuplicateIdsRun(c: Config) returns (sys: System, request: SignatureRequest)
    requires Open(c)
    ensures Reachable(c, sys) && 0 in sys.deals && 0 !in sys.early && 0 !in sys.lost
    ensures StartSignature(0, sys.deals[0], request, 0).Signs?
    ensures StartSignature(0, sys.deals[0], request, 0).quote.supplierId == "a"
    ensures sys.deals[0].order.Some? && sys.deals[0].order.value.supplierId == "b"
  {
    hide Reachable, Next, Execute, RecordFromState;
    var one, two := Offer(7, "a", 20.0), Offer(7, "b", 10.0);
    var approved, first, second := ApprovedRun(c, one, two);
    sys := approved;
    OrderedFrom(c, sys, first, second);
    request := SigningRequest(c, sys);
    assert FindQuote([one, two], 7) == Some(one);
  }

  /** From the start to an order in the name of a supplier that never made the offer: "b" answers in the
      name of "a", cheaper than "a" itself, and "a" is ordered from and paid under the terms of "b". */
  lemma ForeignNameRun(c: Config) returns (sys: System)
    requires Open(c)
    ensures Reachable(c, sys) && 0 in sys.deals && sys.deals[0].status == PaymentSignatureRequired
    ensures 0 !in sys.early && 0 !in sys.lost
    ensures var foreign := Offer(2, "a", 10.0);
            var world := World(FROM_A, foreign);
            && world.replies == map["a" := W.Quoted(FROM_A), "b" := W.Quoted(foreign)]
            && sys.deals[0].quotes ==
                W.CollectedQuotes(W.Agents(world.registry, sys.deals[0].supplierIds), world.replies)
            && sys.deals[0].supplierIds == ["a", "b"]
            && sys.deals[0].selectedQuoteId == Some(foreign.quoteId)
            && sys.deals[0].order.Some? && sys.deals[0].order.value.supplierId == "a"
            && sys.deals[0].paymentDraft.Some? && sys.deals[0].paymentDraft.value.payeeSupplierId == "a"
            && sys.deals[0].paymentDraft.value.amount == 10.0
  {
    hide Reachable, Next, Execute, RecordFromState, W.CollectedQuotes, W.Agents;
    var foreign := Offer(2, "a", 10.0);
    var approved, first, second := ApprovedRun(c, FROM_A, foreign);
    sys := approved;
    OrderedFrom(c, sys, first, second);
    var a := OrderedIsCached(c, sys, 0);
    PaysWinner(c, sys, first, second);
    AsksBoth(FROM_A, foreign);
    BothAnswer(FROM_A, foreign);
  }

  /** A reachable deal that requires its signature, approved for the cheaper offer after its workflow. */
  lemma ApprovedRun(c: Config, one: Quote, two: Quote)
    returns (sys: System, first: EvaluatedQuote, second: EvaluatedQuote)
    requires Open(c) && Pair(one, two)
    ensures Reachable(c, sys) && sys.op.None? && 0 in sys.deals && 0 in sys.tasks && sys.tasks[0].Running?
    ensures sys.outbox == []
    ensures sys.deals[0].status == PaymentSignatureRequired && sys.deals[0].selectedQuoteId == Some(two.quoteId)
    ensures sys.tasks[0].ws == Awaited(first, second, sys.tasks[0].ws.events) && sys.tasks[0].draft == Fresh()
    ensures first.quote == two && second.quote == one && FindEvaluated([first, second], two.quoteId) == Some(first)
    ensures sys.early == {} && sys.lost == {} && sys.unsent == {} && Finished(sys, 0)
    ensures 0 in sys.trust.purchases && 0 in sys.winners && sys.winners[0] == two.quoteId
  {
    hide Reachable, Next, Execute, RecordFromState;
    var shown, ea, eb := AwaitingRun(c, one, two);
    first, second := ea, eb;
    LastPutShows(c, shown, first, second);
    var over := Next(c, shown, TaskPut(0, 0, []));
    ExecuteOne(c, shown, TaskPut(0, 0, []));
    RunIsReachable(c, shown, [TaskPut(0, 0, [])]);
    var approval, after := Approves(c, over, first, second, first);
    sys := after;
  }

  /** A request that the deal accepts. */
  lemma SigningRequest(c: Config, sys: System) returns (request: SignatureRequest)
    requires Reachable(c, sys) && c.minimumQuotes >= 1 && 0 in sys.deals
    requires sys.deals[0].status == PaymentSignatureRequired
    requires 0 in sys.tasks && sys.tasks[0].Running? && sys.tasks[0].draft == Fresh()
    ensures StartSignature(0, sys.deals[0], request, 0).Signs? && sys.deals[0].mandate == PERMISSION
    ensures request.signedBy == "ann" && request.confirmation
    ensures Some(request.paymentDraftId) == sys.deals[0].paymentDraftId
  {
    hide TaskHolds, OpHolds, CacheHolds, Calm, Intact, Made;
    HoldsAt(c, sys, 0);
    request := SignatureRequest("ann", sys.deals[0].paymentDraftId.value, true);
    SignatureProgress(c, sys, 0, request, 0);
  }

  /** The signature is stored and its messages are to be appended. */
  lemma SignedUpTo(c: Config, sys: System, request: SignatureRequest) returns (signed: System)
    requires Reachable(c, sys) && c.minimumQuotes >= 1 && sys.op.None? && 0 in sys.deals && 0 in sys.tasks
    requires StartSignature(0, sys.deals[0], request, 0).Signs?
    ensures Reachable(c, signed) && signed.op.Some? && signed.op.value.Messaging? && signed.op.value.deal.dealId == 0
    ensures Finished(sys, 0) ==> signed.early == sys.early
    ensures signed.tasks == sys.tasks && signed.outbox == sys.outbox && 0 in signed.deals
    ensures signed.deals[0].status == Completed && signed.deals[0].paymentDraftId == sys.deals[0].paymentDraftId
    ensures signed.deals[0].mandate == sys.deals[0].mandate
  {
    hide Reachable, Execute, Invariant, StartSignature, SignedRecord, Next;
    ReachableHolds(c, sys);
    IdHolds(c, sys, 0);
    SignatureState(0, sys.deals[0], request, 0);
    SignedStep(c, sys, 0, request, 0);
    var begun := Next(c, sys, BeginSign(0, request, 0));
    var quote := StartSignature(0, sys.deals[0], request, 0).quote;
    SignedKeepsIds(sys.deals[0], request, quote, sys.trust.nextId, 0);
    SignedIs(0, sys.deals[0], request, sys.trust.nextId, 0);
    LeavesTasks(c, sys, BeginSign(0, request, 0));
    SigningPuts(c, begun, SignedRecord(sys.deals[0], request, quote, sys.trust.nextId, 0), quote);
    TwoSteps(c, sys, BeginSign(0, request, 0), OpPut(0, []));
    RunIsReachable(c, sys, [BeginSign(0, request, 0)] + [OpPut(0, [])]);
    signed := Next(c, begun, OpPut(0, []));
  }

  lemma SigningPuts(c: Config, sys: System, updated: Deal, quote: Quote)
    requires sys.op == Some(Signing(updated, quote))
    ensures var stored := Next(c, sys, OpPut(0, []));
            && stored.op == Some(Messaging(updated, quote)) && stored.early == sys.early
            && stored.tasks == sys.tasks && stored.outbox == sys.outbox
            && stored.deals == sys.deals[updated.dealId := updated.(events := [])]
  {
  }

  /** From the start to a completed deal whose messages will never be sent: the append after the signature fails. */
  lemma UnsentRun(c: Config) returns (sys: System)
    requires Open(c)
    ensures Reachable(c, sys) && 0 in sys.deals && sys.deals[0].status == Completed && 0 !in sys.early
    ensures sys.op.None? && 0 in sys.unsent && Absent(sys.outbox, 0)
  {
    hide Reachable, Next, Absent;
    var approved, first, second := ApprovedRun(c, FROM_A, FROM_B);
    var request := SigningRequest(c, approved);
    var signed := SignedUpTo(c, approved, request);
    FailureReleases(c, signed);
    ExecuteOne(c, signed, OpFails);
    RunIsReachable(c, signed, [OpFails]);
    sys := Next(c, signed, OpFails);
    UnsentForGood(c, signed, []);
  }
}
