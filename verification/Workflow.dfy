/** The procurement graph: six nodes, four routing functions, and what every run of it delivers. */
module Workflow {
  import opened Wrappers
  import opened Domain
  import opened StableSorting
  import opened Ranking
  import opened RankingProperties

  /** What stays fixed during a run. */
  datatype Job = Job(intent: Intent, mandate: Mandate, minimumQuotes: nat)

  datatype WorkflowState = WorkflowState(
    supplierIds: seq<AgentId>, quotes: seq<Quote>, comparison: Option<Comparison>, status: DealStatus,
    errors: seq<WorkflowError>, events: seq<Event>)

  datatype Node = Validate | Discover | RequestQuotes | Rank | Explain | Finalize

  datatype AgentEntry = AgentEntry(supplierId: AgentId, categories: set<string>)

  datatype Reply = RequestFailed | NoQuoteReply | Quoted(quote: Quote)

  /** What the outside world contributes to one node: the clock, the registry, the suppliers' replies,
      the trusted risks, and the narrated explanation. */
  datatype Inputs = Inputs(
    now: Time, today: Day, registry: seq<AgentEntry>, replies: map<AgentId, Reply>, risks: map<AgentId, real>,
        narrative: string)

  /******* validate *******/

  function ValidationErrors(job: Job, now: Time): seq<WorkflowError> {
    (if !job.mandate.Permits(SendRfq, now) then [RfqNotPermitted] else [])
    + (if job.mandate.expiresAt <= now then [MandateExpired] else [])
    + (if job.intent.product.category !in job.mandate.allowedCategories then [CategoryNotAllowed] else [])
    + (if job.intent.maxTotal.Some? && job.intent.maxTotal.value > job.mandate.maxTotal
        then [IntentLimitExceedsMandate] else [])
  }

  function ValidateNode(job: Job, st: WorkflowState, inputs: Inputs): WorkflowState {
    var errors := st.errors + ValidationErrors(job, inputs.now);
    st.(errors := errors, events := st.events + [MandateValidated(errors == [])])
  }

  method ValidateMandate(job: Job, st: WorkflowState, inputs: Inputs) returns (r: WorkflowState)
    ensures r == ValidateNode(job, st, inputs)
  {
    var errors := st.errors;
    if !job.mandate.Permits(SendRfq, inputs.now) { errors := errors + [RfqNotPermitted]; }
    if job.mandate.expiresAt <= inputs.now { errors := errors + [MandateExpired]; }
    if job.intent.product.category !in job.mandate.allowedCategories { errors := errors + [CategoryNotAllowed]; }
    if job.intent.maxTotal.Some? && job.intent.maxTotal.value > job.mandate.maxTotal {
      errors := errors + [IntentLimitExceedsMandate];
    }
    assert errors == st.errors + ValidationErrors(job, inputs.now);
    r := st.(errors := errors, events := st.events + [MandateValidated(errors == [])]);
  }

  /******* discover *******/

  predicate Serves(entry: AgentEntry, job: Job) {
    && job.intent.product.category in entry.categories
    && (job.mandate.allowedSupplierIds.None? || entry.supplierId in job.mandate.allowedSupplierIds.value)
  }

  function Discovered(registry: seq<AgentEntry>, job: Job): seq<AgentId> {
    if registry == [] then []
    else
      var last := registry[|registry| - 1];
      Discovered(registry[..|registry| - 1], job) + if Serves(last, job) then [last.supplierId] else []
  }

  function DiscoverNode(job: Job, st: WorkflowState, inputs: Inputs): WorkflowState {
    var ids := Discovered(inputs.registry, job);
    st.(supplierIds := ids,
        errors := st.errors + (if |ids| < job.minimumQuotes then [TooFewSuppliers] else []),
        events := st.events + [SuppliersDiscovered(ids)])
  }

  method DiscoverSuppliers(job: Job, st: WorkflowState, inputs: Inputs) returns (r: WorkflowState)
    ensures r == DiscoverNode(job, st, inputs)
  {
    var ids: seq<AgentId> := [];
    var registry := inputs.registry;
    for i := 0 to |registry|
      invariant ids == Discovered(registry[..i], job)
    {
      assert registry[..i + 1][..i] == registry[..i];
      if Serves(registry[i], job) { ids := ids + [registry[i].supplierId]; }
    }
    assert registry[..|registry|] == registry;
    var errors := st.errors;
    if |ids| < job.minimumQuotes { errors := errors + [TooFewSuppliers]; }
    r := st.(supplierIds := ids, errors := errors, events := st.events + [SuppliersDiscovered(ids)]);
  }

  /******* request_quotes *******/

  predicate Registered(registry: seq<AgentEntry>, supplierId: AgentId) {
    exists i :: 0 <= i < |registry| && registry[i].supplierId == supplierId
  }

  function Agents(registry: seq<AgentEntry>, ids: seq<AgentId>): seq<AgentId> {
    if ids == [] then []
    else
      var last := ids[|ids| - 1];
      Agents(registry, ids[..|ids| - 1]) + if Registered(registry, last) then [last] else []
  }

  function ReplyOf(replies: map<AgentId, Reply>, agent: AgentId): Reply {
    if agent in replies then replies[agent] else RequestFailed
  }

  function RfqEvents(agents: seq<AgentId>): seq<Event> {
    seq(|agents|, i requires 0 <= i < |agents| => RfqSent(agents[i]))
  }

  function CollectedQuotes(agents: seq<AgentId>, replies: map<AgentId, Reply>): seq<Quote> {
    if agents == [] then []
    else
      var reply := ReplyOf(replies, agents[|agents| - 1]);
      CollectedQuotes(agents[..|agents| - 1], replies) + if reply.Quoted? then [reply.quote] else []
  }

  function ReplyEvents(agents: seq<AgentId>, replies: map<AgentId, Reply>): seq<Event> {
    if agents == [] then []
    else
      var agent := agents[|agents| - 1];
      ReplyEvents(agents[..|agents| - 1], replies)
      + match ReplyOf(replies, agent)
        case RequestFailed => [SupplierRequestFailed(agent)]
        case NoQuoteReply => []
        case Quoted(quote) => [QuoteReceived(agent, quote.quoteId)]
  }

  function RequestNode(job: Job, st: WorkflowState, inputs: Inputs): WorkflowState {
    var agents := Agents(inputs.registry, st.supplierIds);
    var quotes := CollectedQuotes(agents, inputs.replies);
    st.(quotes := quotes,
        errors := st.errors + (if |quotes| < job.minimumQuotes then [TooFewQuotes(|quotes|)] else []),
        events := st.events + RfqEvents(agents) + ReplyEvents(agents, inputs.replies)
            + [QuotesCollected(|agents|, |quotes|)])
  }

  method CollectQuotes(job: Job, st: WorkflowState, inputs: Inputs) returns (r: WorkflowState)
    ensures r == RequestNode(job, st, inputs)
  {
    var agents: seq<AgentId> := [];
    for i := 0 to |st.supplierIds|
      invariant agents == Agents(inputs.registry, st.supplierIds[..i])
    {
      assert st.supplierIds[..i + 1][..i] == st.supplierIds[..i];
      if Registered(inputs.registry, st.supplierIds[i]) { agents := agents + [st.supplierIds[i]]; }
    }
    assert st.supplierIds[..|st.supplierIds|] == st.supplierIds;
    ghost var sent := st.events + RfqEvents(agents);
    var events := st.events + RfqEvents(agents);
    var quotes: seq<Quote> := [];
    for i := 0 to |agents|
      invariant quotes == CollectedQuotes(agents[..i], inputs.replies)
      invariant events == sent + ReplyEvents(agents[..i], inputs.replies)
    {
      assert agents[..i + 1][..i] == agents[..i];
      var reply := ReplyOf(inputs.replies, agents[i]);
      if reply.RequestFailed? {
        events := events + [SupplierRequestFailed(agents[i])];
      } else if reply.Quoted? {
        quotes := quotes + [reply.quote];
        events := events + [QuoteReceived(agents[i], reply.quote.quoteId)];
      }
    }
    assert agents[..|agents|] == agents;
    var errors := st.errors;
    if |quotes| < job.minimumQuotes { errors := errors + [TooFewQuotes(|quotes|)]; }
    r := st.(quotes := quotes, errors := errors, events := events + [QuotesCollected(|agents|, |quotes|)]);
  }

  /******* rank *******/

  /** The quotes with the trusted risk in place of the supplier's own; a supplier without one raises. */
  function Trusted(quotes: seq<Quote>, risks: map<AgentId, real>): Option<seq<Quote>> {
    if quotes == [] then Some([])
    else
      var last := quotes[|quotes| - 1];
      var init := Trusted(quotes[..|quotes| - 1], risks);
      if init.None? || last.supplierId !in risks then None
      else Some(init.value + [last.(supplierRisk := risks[last.supplierId])])
  }

  function RankContext(job: Job, inputs: Inputs): Context {
    Context(job.intent, job.mandate, inputs.now, inputs.today)
  }

  /** `None` when the node raises. */
  function RankNode(job: Job, st: WorkflowState, inputs: Inputs): Option<WorkflowState> {
    match Trusted(st.quotes, inputs.risks)
    case None => None
    case Some(quotes) =>
      match Compare(quotes, RankContext(job, inputs))
      case Err(_) => None
      case Ok(comparison) =>
        Some(st.(quotes := quotes, comparison := Some(comparison),
                 errors := st.errors + (if comparison.recommendedQuoteId.None? then [NoQuotePassed] else []),
                 events := st.events + [QuotesRanked(comparison.recommendedQuoteId)]))
  }

  method RankQuotes(job: Job, st: WorkflowState, inputs: Inputs) returns (r: Option<WorkflowState>)
    ensures r == RankNode(job, st, inputs)
  {
    var quotes: seq<Quote> := [];
    for i := 0 to |st.quotes|
      invariant Trusted(st.quotes[..i], inputs.risks) == Some(quotes)
    {
      assert st.quotes[..i + 1][..i] == st.quotes[..i];
      var quote := st.quotes[i];
      if quote.supplierId !in inputs.risks {
        TrustedPrefix(st.quotes, inputs.risks, i + 1);
        return None;
      }
      quotes := quotes + [quote.(supplierRisk := inputs.risks[quote.supplierId])];
    }
    assert st.quotes[..|st.quotes|] == st.quotes;
    var ranked := CompareQuotes(quotes, RankContext(job, inputs));
    if ranked.Err? { return None; }
    var errors := st.errors;
    if ranked.value.recommendedQuoteId.None? { errors := errors + [NoQuotePassed]; }
    assert errors == st.errors + (if ranked.value.recommendedQuoteId.None? then [NoQuotePassed] else []);
    r := Some(st.(quotes := quotes, comparison := Some(ranked.value), errors := errors,
                  events := st.events + [QuotesRanked(ranked.value.recommendedQuoteId)]));
  }

  lemma {:induction false} TrustedPrefix(quotes: seq<Quote>, risks: map<AgentId, real>, n: nat)
    requires n <= |quotes| && Trusted(quotes[..n], risks).None?
    ensures Trusted(quotes, risks).None?
    decreases |quotes|
  {
    if n < |quotes| {
      assert quotes[..|quotes| - 1][..n] == quotes[..n];
      TrustedPrefix(quotes[..|quotes| - 1], risks, n);
    } else {
      assert quotes[..n] == quotes;
    }
  }

  /******* explain, finalize, and the graph *******/

  function ExplainNode(st: WorkflowState, inputs: Inputs): Option<WorkflowState> {
    if st.comparison.None? then None
    else Some(st.(comparison := Some(st.comparison.value.(explanation := Narrated(inputs.narrative))),
                  events := st.events + [ComparisonExplained]))
  }

  predicate HasRecommendation(st: WorkflowState) {
    st.comparison.Some? && st.comparison.value.recommendedQuoteId.Some?
  }

  function FinalizeNode(st: WorkflowState): WorkflowState {
    var status := if st.errors == [] && HasRecommendation(st) then AwaitingApproval else Failed;
    st.(status := status, events := st.events + [WorkflowCompleted(status)])
  }

  function RunNode(node: Node, job: Job, st: WorkflowState, inputs: Inputs): Option<WorkflowState> {
    match node
    case Validate => Some(ValidateNode(job, st, inputs))
    case Discover => Some(DiscoverNode(job, st, inputs))
    case RequestQuotes => Some(RequestNode(job, st, inputs))
    case Rank => RankNode(job, st, inputs)
    case Explain => ExplainNode(st, inputs)
    case Finalize => Some(FinalizeNode(st))
  }

  method RunGraphNode(node: Node, job: Job, st: WorkflowState, inputs: Inputs) returns (r: Option<WorkflowState>)
    ensures r == RunNode(node, job, st, inputs)
  {
    match node {
      case Validate => var next := ValidateMandate(job, st, inputs); r := Some(next);
      case Discover => var next := DiscoverSuppliers(job, st, inputs); r := Some(next);
      case RequestQuotes => var next := CollectQuotes(job, st, inputs); r := Some(next);
      case Rank => r := RankQuotes(job, st, inputs);
      case Explain => r := ExplainNode(st, inputs);
      case Finalize => r := Some(FinalizeNode(st));
    }
  }

  /** The edges and routing functions; `None` is the end. */
  function Route(node: Node, st: WorkflowState): Option<Node> {
    match node
    case Validate => Some(if st.errors != [] then Finalize else Discover)
    case Discover => Some(if st.errors != [] then Finalize else RequestQuotes)
    case RequestQuotes => Some(if st.errors != [] || st.quotes == [] then Finalize else Rank)
    case Rank => Some(if HasRecommendation(st) then Explain else Finalize)
    case Explain => Some(Finalize)
    case Finalize => None
  }

  function NodesLeft(node: Node): nat {
    match node
    case Validate => 6
    case Discover => 5
    case RequestQuotes => 4
    case Rank => 3
    case Explain => 2
    case Finalize => 1
  }

  lemma RouteDescends(node: Node, st: WorkflowState)
    ensures Route(node, st).Some? ==> NodesLeft(Route(node, st).value) < NodesLeft(node)
  {
  }

  /** A finished run: the nodes it went through, the state after each, and whether a node raised. */
  datatype Trace = Trace(nodes: seq<Node>, states: seq<WorkflowState>, raised: bool)

  function Run(node: Node, job: Job, st: WorkflowState, inputs: Node -> Inputs): Trace
    decreases NodesLeft(node)
  {
    match RunNode(node, job, st, inputs(node))
    case None => Trace([], [], true)
    case Some(next) =>
      match Route(node, next)
      case None => Trace([node], [next], false)
      case Some(target) =>
        var rest := Run(target, job, next, inputs);
        Trace([node] + rest.nodes, [next] + rest.states, rest.raised)
  }

  /******* What every run delivers *******/

  /** What an eligible quote is at any time: for the product and quantity of the intent, in its currency, within
      the limits of both the mandate and the intent, and from a supplier of the mandate's list. */
  predicate WithinLimits(quote: Quote, job: Job) {
    && quote.sku == job.intent.product.sku && quote.quantity == job.intent.product.quantity
    && quote.TotalCost() <= job.mandate.maxTotal
    && (job.intent.maxTotal.Some? ==> quote.TotalCost() <= job.intent.maxTotal.value)
    && quote.currency == job.intent.currency
    && (job.mandate.allowedSupplierIds.Some? ==> quote.supplierId in job.mandate.allowedSupplierIds.value)
  }

  /** A comparison that a deal can be approved on: its head is the recommendation, every item that is
      eligible is within limits, and its items are exactly the state's quotes. */
  ghost predicate Approvable(job: Job, quotes: seq<Quote>, comparison: Comparison) {
    && comparison.evaluatedQuotes != []
    && comparison.evaluatedQuotes[0].eligible
    && comparison.recommendedQuoteId == Some(comparison.evaluatedQuotes[0].quote.quoteId)
    && comparison.rankingVersion == RANKING_VERSION
    && (forall item :: item in comparison.evaluatedQuotes && item.eligible ==> WithinLimits(item.quote, job))
    && (forall item :: item in comparison.evaluatedQuotes ==> item.quote in quotes)
    && (forall q :: q in quotes ==> exists item :: item in comparison.evaluatedQuotes && item.quote == q)
  }

  ghost predicate Ready(job: Job, st: WorkflowState) {
    && |st.quotes| >= job.minimumQuotes
    && st.comparison.Some?
    && Approvable(job, st.quotes, st.comparison.value)
  }

  /** What holds when a node is entered. */
  ghost predicate At(node: Node, job: Job, st: WorkflowState) {
    match node
    case Validate => true
    case Discover => st.errors == []
    case RequestQuotes => st.errors == []
    case Rank => st.errors == [] && |st.quotes| >= job.minimumQuotes
    case Explain => st.errors == [] && Ready(job, st)
    case Finalize => st.errors == [] ==> Ready(job, st)
  }

  lemma EligibleWithinLimits(quote: Quote, job: Job, inputs: Inputs)
    requires Eligible(quote, RankContext(job, inputs))
    ensures WithinLimits(quote, job)
  {
    hide Eligible, Quote.TotalCost;
    var ctx := RankContext(job, inputs);
    EligibleIff(quote, ctx);
    assert !Violates(SkuMismatch, quote, ctx) && !Violates(QuantityMismatch, quote, ctx);
    assert !Violates(LimitExceeded, quote, ctx) && !Violates(CurrencyMismatch, quote, ctx);
    assert !Violates(SupplierNotAllowed, quote, ctx);
  }

  lemma EvaluatedMembers(quotes: seq<Quote>, ctx: Context)
    requires Comparable(quotes, ctx)
    ensures forall item :: item in Ranked(quotes, ctx) <==> item in Evaluated(quotes, ctx)
  {
    SortPermutes(Evaluated(quotes, ctx), Above);
    forall item ensures item in Ranked(quotes, ctx) <==> item in Evaluated(quotes, ctx) {
      assert item in Ranked(quotes, ctx) <==> item in multiset(Evaluated(quotes, ctx));
    }
  }

  lemma EvaluatedQuotesAre(quotes: seq<Quote>, ctx: Context)
    requires Comparable(quotes, ctx)
    ensures forall item :: item in Evaluated(quotes, ctx) ==>
        item.quote in quotes && item.eligible == Eligible(item.quote, ctx)
    ensures forall q :: q in quotes ==> exists item :: item in Evaluated(quotes, ctx) && item.quote == q
  {
    var e := Evaluated(quotes, ctx);
    EvaluatedWellScored(quotes, ctx);
    forall q | q in quotes ensures exists item :: item in e && item.quote == q {
      var i :| 0 <= i < |quotes| && quotes[i] == q;
      assert e[i] in e && e[i].quote == q;
    }
  }

  lemma CompareApprovable(quotes: seq<Quote>, job: Job, inputs: Inputs)
    requires Compare(quotes, RankContext(job, inputs)).Ok?
    ensures Compare(quotes, RankContext(job, inputs)).value.recommendedQuoteId.Some? ==>
              Approvable(job, quotes, Compare(quotes, RankContext(job, inputs)).value)
  {
    var ctx := RankContext(job, inputs);
    if EligibleQuotes(quotes, ctx) != [] {
      CompareIsRanked(quotes, ctx);
      EvaluatedMembers(quotes, ctx);
      EvaluatedQuotesAre(quotes, ctx);
      forall item | item in Ranked(quotes, ctx) && item.eligible ensures WithinLimits(item.quote, job) {
        EligibleWithinLimits(item.quote, job, inputs);
      }
    }
  }

  lemma {:induction false} TrustedLength(quotes: seq<Quote>, risks: map<AgentId, real>)
    requires Trusted(quotes, risks).Some?
    ensures |Trusted(quotes, risks).value| == |quotes|
  {
    if quotes != [] {
      TrustedLength(quotes[..|quotes| - 1], risks);
    }
  }

  lemma RankReady(job: Job, st: WorkflowState, inputs: Inputs)
    requires At(Rank, job, st) && RankNode(job, st, inputs).Some?
    ensures var next := RankNode(job, st, inputs).value;
            if HasRecommendation(next) then next.errors == [] && Ready(job, next) else next.errors != []
  {
    var quotes := Trusted(st.quotes, inputs.risks).value;
    TrustedLength(st.quotes, inputs.risks);
    CompareApprovable(quotes, job, inputs);
  }

  lemma ExplainReady(job: Job, st: WorkflowState, inputs: Inputs)
    requires At(Explain, job, st)
    ensures ExplainNode(st, inputs).Some? && Ready(job, ExplainNode(st, inputs).value)
  {
    var c := st.comparison.value;
    assert Approvable(job, st.quotes, c.(explanation := Narrated(inputs.narrative)));
  }

  lemma StepKeeps(node: Node, job: Job, st: WorkflowState, inputs: Inputs)
    requires At(node, job, st) && job.minimumQuotes >= 1 && RunNode(node, job, st, inputs).Some?
    ensures var next := RunNode(node, job, st, inputs).value;
            Route(node, next).Some? ==> At(Route(node, next).value, job, next)
  {
    match node {
      case Validate =>
      case Discover =>
      case RequestQuotes =>
      case Rank => RankReady(job, st, inputs);
      case Explain => ExplainReady(job, st, inputs);
      case Finalize =>
    }
  }

  /** Every node keeps the errors and strictly extends the events. */
  lemma NodeExtends(node: Node, job: Job, st: WorkflowState, inputs: Inputs)
    requires RunNode(node, job, st, inputs).Some?
    ensures st.errors <= RunNode(node, job, st, inputs).value.errors
    ensures st.events < RunNode(node, job, st, inputs).value.events
  {
  }

  /** Only the last node decides the status: ready deals await approval, all others failed. */
  lemma FinalizeDecides(job: Job, st: WorkflowState)
    requires At(Finalize, job, st)
    ensures FinalizeNode(st).status == AwaitingApproval <==> FinalizeNode(st).errors == []
    ensures FinalizeNode(st).status == AwaitingApproval || FinalizeNode(st).status == Failed
    ensures FinalizeNode(st).status == AwaitingApproval ==> Ready(job, FinalizeNode(st))
  {
  }

  ghost predicate Chained(first: WorkflowState, states: seq<WorkflowState>) {
    && (states != [] ==> first.errors <= states[0].errors && first.events < states[0].events)
    && (forall i :: 0 < i < |states| ==>
          states[i - 1].errors <= states[i].errors && states[i - 1].events < states[i].events)
  }

  ghost predicate Delivered(node: Node, job: Job, t: Trace) {
    && |t.nodes| == |t.states|
    && 1 <= |t.nodes| <= NodesLeft(node)
    && (forall i :: 0 <= i < |t.nodes| ==> (t.nodes[i] == Finalize <==> i == |t.nodes| - 1))
    && var last := t.states[|t.states| - 1];
       && (last.status == AwaitingApproval <==> last.errors == [])
       && (last.status == AwaitingApproval || last.status == Failed)
       && (last.status == AwaitingApproval ==> Ready(job, last))
  }

  lemma ChainedCons(first: WorkflowState, next: WorkflowState, states: seq<WorkflowState>)
    requires first.errors <= next.errors && first.events < next.events && Chained(next, states)
    ensures Chained(first, [next] + states)
  {
  }

  /** Every run that does not raise reaches finalize exactly once, as its last of at most six nodes;
      errors grow and events strictly extend from state to state; it ends awaiting approval exactly
      when there are no errors, and then on at least the minimum number of quotes and an eligible
      recommendation within both limits. */
  lemma {:induction false} RunDelivers(node: Node, job: Job, st: WorkflowState, inputs: Node -> Inputs)
    requires At(node, job, st) && job.minimumQuotes >= 1
    ensures Chained(st, Run(node, job, st, inputs).states)
    ensures !Run(node, job, st, inputs).raised ==> Delivered(node, job, Run(node, job, st, inputs))
    decreases NodesLeft(node)
  {
    if RunNode(node, job, st, inputs(node)).Some? {
      var next := RunNode(node, job, st, inputs(node)).value;
      NodeExtends(node, job, st, inputs(node));
      StepKeeps(node, job, st, inputs(node));
      match Route(node, next) {
        case None => FinalizeDecides(job, st);
        case Some(target) =>
          RouteDescends(node, next);
          RunDelivers(target, job, next, inputs);
          ChainedCons(st, next, Run(target, job, next, inputs).states);
      }
    }
  }

  /******* What an awaiting deal has been through *******/

  /** Some entry of the agent serves the category and is on the mandate's list, if there is one. */
  predicate ServesAs(registry: seq<AgentEntry>, job: Job, id: AgentId) {
    exists k :: 0 <= k < |registry| && registry[k].supplierId == id
        && job.intent.product.category in registry[k].categories
        && (job.mandate.allowedSupplierIds.Some? ==> id in job.mandate.allowedSupplierIds.value)
  }

  lemma {:induction false} DiscoveredServe(registry: seq<AgentEntry>, job: Job, id: AgentId)
    ensures id in Discovered(registry, job) <==> ServesAs(registry, job, id)
  {
    if registry != [] {
      var n := |registry| - 1;
      DiscoveredServe(registry[..n], job, id);
      assert ServesAs(registry, job, id) <==>
          ServesAs(registry[..n], job, id) || (registry[n].supplierId == id && Serves(registry[n], job))
      by {
        if ServesAs(registry, job, id) {
          var k :| 0 <= k < |registry| && registry[k].supplierId == id && Serves(registry[k], job);
          assert k < n ==> registry[..n][k] == registry[k];
        }
        if ServesAs(registry[..n], job, id) {
          var k :| 0 <= k < n && registry[..n][k].supplierId == id && Serves(registry[..n][k], job);
          assert registry[k] == registry[..n][k];
        }
      }
    }
  }

  lemma {:induction false} AgentsAreContacts(registry: seq<AgentEntry>, ids: seq<AgentId>, a: AgentId)
    ensures a in Agents(registry, ids) <==> a in ids && Registered(registry, a)
  {
    if ids != [] {
      AgentsAreContacts(registry, ids[..|ids| - 1], a);
      assert ids == ids[..|ids| - 1] + [ids[|ids| - 1]];
    }
  }

  /** The quote came back from one of the agents. */
  ghost predicate RepliedBy(agents: seq<AgentId>, replies: map<AgentId, Reply>, quote: Quote) {
    exists a :: a in agents && ReplyOf(replies, a) == Quoted(quote)
  }

  lemma {:induction false} QuotesAreReplies(agents: seq<AgentId>, replies: map<AgentId, Reply>, quote: Quote)
    ensures quote in CollectedQuotes(agents, replies) <==> RepliedBy(agents, replies, quote)
  {
    if agents != [] {
      var n := |agents| - 1;
      QuotesAreReplies(agents[..n], replies, quote);
      assert agents == agents[..n] + [agents[n]];
    }
  }

  lemma {:induction false} TrustedAre(quotes: seq<Quote>, risks: map<AgentId, real>)
    requires Trusted(quotes, risks).Some?
    ensures var trusted := Trusted(quotes, risks).value;
            |trusted| == |quotes|
            && forall i :: 0 <= i < |quotes| ==>
                 quotes[i].supplierId in risks && trusted[i] == quotes[i].(supplierRisk := risks[quotes[i].supplierId])
  {
    if quotes != [] {
      TrustedAre(quotes[..|quotes| - 1], risks);
    }
  }

  /** A quote that was answered by a contacted agent and carries the trusted risk of its supplier. */
  ghost predicate Vouched(contacts: seq<AgentId>, inputs: Node -> Inputs, quote: Quote) {
    && quote.supplierId in inputs(Rank).risks && quote.supplierRisk == inputs(Rank).risks[quote.supplierId]
    && exists original ::
        RepliedBy(Agents(inputs(RequestQuotes).registry, contacts), inputs(RequestQuotes).replies, original)
                          && quote == original.(supplierRisk := quote.supplierRisk)
  }

  ghost predicate Vetted(job: Job, last: WorkflowState, inputs: Node -> Inputs) {
    && job.mandate.Permits(SendRfq, inputs(Validate).now)
    && job.intent.product.category in job.mandate.allowedCategories
    && (job.intent.maxTotal.Some? ==> job.intent.maxTotal.value <= job.mandate.maxTotal)
    && |last.supplierIds| >= job.minimumQuotes
    && (forall id :: id in last.supplierIds <==> ServesAs(inputs(Discover).registry, job, id))
    && (forall q :: q in last.quotes ==> Vouched(last.supplierIds, inputs, q))
  }

  lemma RankedAreVouched(job: Job, st: WorkflowState, inputs: Node -> Inputs)
    requires st.quotes == CollectedQuotes(Agents(inputs(RequestQuotes).registry, st.supplierIds),
        inputs(RequestQuotes).replies)
    requires RankNode(job, st, inputs(Rank)).Some?
    ensures forall q :: q in RankNode(job, st, inputs(Rank)).value.quotes ==> Vouched(st.supplierIds, inputs, q)
  {
    hide Compare;
    var agents := Agents(inputs(RequestQuotes).registry, st.supplierIds);
    TrustedAre(st.quotes, inputs(Rank).risks);
    forall q | q in RankNode(job, st, inputs(Rank)).value.quotes ensures Vouched(st.supplierIds, inputs, q) {
      var i :| 0 <= i < |st.quotes| && RankNode(job, st, inputs(Rank)).value.quotes[i] == q;
      QuotesAreReplies(agents, inputs(RequestQuotes).replies, st.quotes[i]);
      assert q == st.quotes[i].(supplierRisk := q.supplierRisk);
    }
  }

  /** A run that ends awaiting approval went through the first three nodes without an error. */
  lemma ReachesRank(job: Job, inputs: Node -> Inputs, st: WorkflowState)
    requires st.errors == [] && st.comparison.None? && !Run(Validate, job, st, inputs).raised
    requires var states := Run(Validate, job, st, inputs).states;
             states != [] && states[|states| - 1].status == AwaitingApproval
    ensures var s1 := ValidateNode(job, st, inputs(Validate));
            var s2 := DiscoverNode(job, s1, inputs(Discover));
            var s3 := RequestNode(job, s2, inputs(RequestQuotes));
            && s1.errors == [] && s2.errors == [] && s3.comparison.None?
            && Run(Validate, job, st, inputs).nodes ==
                [Validate] + ([Discover] + ([RequestQuotes] + Run(Rank, job, s3, inputs).nodes))
            && Run(Validate, job, st, inputs).states == [s1] + ([s2] + ([s3] + Run(Rank, job, s3, inputs).states))
            && !Run(Rank, job, s3, inputs).raised
  {
    hide Compare, ValidationErrors, Discovered, Agents, CollectedQuotes, RfqEvents, ReplyEvents;
    var s1 := ValidateNode(job, st, inputs(Validate));
    var s2 := DiscoverNode(job, s1, inputs(Discover));
    var s3 := RequestNode(job, s2, inputs(RequestQuotes));
    FinalizeAlone(job, s1, inputs);
    FinalizeAlone(job, s2, inputs);
    FinalizeAlone(job, s3, inputs);
    RunOnto(Validate, job, st, inputs, s1, Route(Validate, s1).value);
    RunOnto(Discover, job, s1, inputs, s2, Route(Discover, s2).value);
    RunOnto(RequestQuotes, job, s2, inputs, s3, Route(RequestQuotes, s3).value);
  }

  /** No deal awaits approval unless the mandate permitted the requests, the category and the limit; the
      contacts are all serving suppliers of the mandate's list and nobody else; and every quote was
      answered by one of them and is ranked with the trusted risk. */
  lemma AwaitingIsVetted(job: Job, inputs: Node -> Inputs, st: WorkflowState)
    requires st.errors == [] && st.comparison.None? && !Run(Validate, job, st, inputs).raised
    requires var states := Run(Validate, job, st, inputs).states;
             states != [] && states[|states| - 1].status == AwaitingApproval
    ensures var states := Run(Validate, job, st, inputs).states; Vetted(job, states[|states| - 1], inputs)
    ensures Run(Validate, job, st, inputs).nodes == [Validate, Discover, RequestQuotes, Rank, Explain, Finalize]
  {
    hide Compare, Run, Discovered, Agents, CollectedQuotes, RfqEvents, ReplyEvents, RankNode, Vouched, ServesAs;
    var s1 := ValidateNode(job, st, inputs(Validate));
    var s2 := DiscoverNode(job, s1, inputs(Discover));
    var s3 := RequestNode(job, s2, inputs(RequestQuotes));
    ReachesRank(job, inputs, st);
    AwaitingIsLast(job, s3, inputs);
    RankedRun(job, s3, inputs);
    RankedAreVouched(job, s3, inputs);
    forall id ensures id in s2.supplierIds <==> ServesAs(inputs(Discover).registry, job, id) {
      DiscoveredServe(inputs(Discover).registry, job, id);
    }
  }

  /** A contacted agent answered with a quote in another supplier's name. */
  ghost predicate Misnamed(agents: seq<AgentId>, replies: map<AgentId, Reply>) {
    exists a :: a in agents && ReplyOf(replies, a).Quoted? && ReplyOf(replies, a).quote.supplierId != a
  }

  /** Every ranked quote names the agents that answered with it. */
  ghost predicate NamesAnswerers(quotes: seq<Quote>, agents: seq<AgentId>, replies: map<AgentId, Reply>) {
    forall a :: a in agents && ReplyOf(replies, a).Quoted? ==> NamesAnswerer(quotes, ReplyOf(replies, a).quote, a)
  }

  /** The quotes ranked for this answer, one at least, all name the agent. */
  ghost predicate NamesAnswerer(quotes: seq<Quote>, answer: Quote, agent: AgentId) {
    && (exists q :: q in quotes && q == answer.(supplierRisk := q.supplierRisk))
    && (forall q :: q in quotes && q == answer.(supplierRisk := q.supplierRisk) ==> q.supplierId == agent)
  }

  lemma AnswersAreRanked(quotes: seq<Quote>, risks: map<AgentId, real>, answer: Quote)
    requires Trusted(quotes, risks).Some? && answer in quotes
    ensures exists q :: q in Trusted(quotes, risks).value && q == answer.(supplierRisk := q.supplierRisk)
  {
    TrustedAre(quotes, risks);
    var i :| 0 <= i < |quotes| && quotes[i] == answer;
    assert Trusted(quotes, risks).value[i] == answer.(supplierRisk := risks[answer.supplierId]);
  }

  /** Whose name a ranked quote bears is not checked: for every run that ends awaiting approval, all ranked
      quotes name the agents that answered with them iff no contacted agent answered in another's name. */
  lemma NamesAreRightIff(job: Job, inputs: Node -> Inputs, st: WorkflowState)
    requires st.errors == [] && st.comparison.None? && !Run(Validate, job, st, inputs).raised
    requires var states := Run(Validate, job, st, inputs).states;
             states != [] && states[|states| - 1].status == AwaitingApproval
    ensures var states := Run(Validate, job, st, inputs).states;
            var last := states[|states| - 1];
            var agents, replies := Agents(inputs(RequestQuotes).registry, last.supplierIds),
                inputs(RequestQuotes).replies;
            NamesAnswerers(last.quotes, agents, replies) <==> !Misnamed(agents, replies)
  {
    hide Compare, Run, Discovered, Agents, CollectedQuotes, RfqEvents, ReplyEvents;
    var s1 := ValidateNode(job, st, inputs(Validate));
    var s2 := DiscoverNode(job, s1, inputs(Discover));
    var s3 := RequestNode(job, s2, inputs(RequestQuotes));
    ReachesRank(job, inputs, st);
    AwaitingIsLast(job, s3, inputs);
    RankedRun(job, s3, inputs);
    var agents, replies := Agents(inputs(RequestQuotes).registry, s3.supplierIds), inputs(RequestQuotes).replies;
    forall a | a in agents && ReplyOf(replies, a).Quoted?
      ensures NamesAnswerer(RankNode(job, s3, inputs(Rank)).value.quotes, ReplyOf(replies, a).quote, a)
              <==> ReplyOf(replies, a).quote.supplierId == a
    {
      QuotesAreReplies(agents, replies, ReplyOf(replies, a).quote);
      AnswersAreRanked(s3.quotes, inputs(Rank).risks, ReplyOf(replies, a).quote);
    }
  }

  lemma AwaitingIsLast(job: Job, st: WorkflowState, inputs: Node -> Inputs)
    requires !Run(Rank, job, st, inputs).raised
    ensures Run(Rank, job, st, inputs).states != []
  {
    hide Compare;
  }

  lemma RankedRun(job: Job, st: WorkflowState, inputs: Node -> Inputs)
    requires !Run(Rank, job, st, inputs).raised && st.comparison.None?
    requires var states := Run(Rank, job, st, inputs).states;
             states != [] && states[|states| - 1].status == AwaitingApproval
    ensures RankNode(job, st, inputs(Rank)).Some?
    ensures Run(Rank, job, st, inputs).nodes == [Rank, Explain, Finalize]
    ensures var states := Run(Rank, job, st, inputs).states;
            && states[|states| - 1].quotes == RankNode(job, st, inputs(Rank)).value.quotes
            && states[|states| - 1].supplierIds == st.supplierIds
  {
    hide Compare, Trusted;
    var s4 := RankNode(job, st, inputs(Rank)).value;
    FinalizeAlone(job, s4, inputs);
    RunOnto(Rank, job, st, inputs, s4, Route(Rank, s4).value);
    if HasRecommendation(s4) {
      var s5 := ExplainNode(s4, inputs(Explain)).value;
      FinalizeAlone(job, s5, inputs);
      RunOnto(Explain, job, s4, inputs, s5, Finalize);
    }
  }

  lemma RunOnto(node: Node, job: Job, st: WorkflowState, inputs: Node -> Inputs, next: WorkflowState, target: Node)
    requires RunNode(node, job, st, inputs(node)) == Some(next) && Route(node, next) == Some(target)
    ensures var rest := Run(target, job, next, inputs);
            Run(node, job, st, inputs) == Trace([node] + rest.nodes, [next] + rest.states, rest.raised)
  {
  }

  /** The minimum of one quote is needed: with a minimum of zero and no supplier, a run without any
      error still fails. */
  lemma ZeroMinimumFails(job: Job, inputs: Node -> Inputs, st: WorkflowState)
    requires job.minimumQuotes == 0 && ValidationErrors(job, inputs(Validate).now) == []
    requires inputs(Discover).registry == []
    requires st.errors == [] && st.comparison.None?
    ensures var t := Run(Validate, job, st, inputs);
            !t.raised && t.nodes == [Validate, Discover, RequestQuotes, Finalize]
            && t.states[3].errors == [] && t.states[3].status == Failed
  {
    var s1 := ValidateNode(job, st, inputs(Validate));
    var s2 := DiscoverNode(job, s1, inputs(Discover));
    var s3 := RequestNode(job, s2, inputs(RequestQuotes));
    assert s1.errors == [] && s2.errors == [] && s3.errors == [] && s3.quotes == [];
    FinalizeAlone(job, s3, inputs);
    RunOnto(RequestQuotes, job, s2, inputs, s3, Finalize);
    RunOnto(Discover, job, s1, inputs, s2, RequestQuotes);
    RunOnto(Validate, job, st, inputs, s1, Discover);
  }

  lemma FinalizeAlone(job: Job, st: WorkflowState, inputs: Node -> Inputs)
    ensures Run(Finalize, job, st, inputs) == Trace([Finalize], [FinalizeNode(st)], false)
  {
  }
}
