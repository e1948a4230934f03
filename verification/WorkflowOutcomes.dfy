/** How a run of the procurement graph ends, decided by its inputs: what the suppliers answered, what the
    mandate and the intent ask for, and the two clocks that the rank node reads. */
module WorkflowOutcomes {
  import opened Wrappers
  import opened Domain
  import opened Ranking
  import opened RankingProperties
  import opened Workflow

  /** What the intent and the mandate ask of a quote at an instant on a calendar day. */
  predicate Fits(quote: Quote, job: Job, now: Time, today: Day) {
    && quote.sku == job.intent.product.sku
    && quote.quantity == job.intent.product.quantity
    && quote.currency == job.intent.currency
    && quote.validUntil > now
    && today + quote.deliveryDays <= job.intent.deliveryBy
    && quote.unitPrice * quote.quantity as real + quote.deliveryFee <= job.mandate.maxTotal
    && (job.intent.maxTotal.Some? ==>
          quote.unitPrice * quote.quantity as real + quote.deliveryFee <= job.intent.maxTotal.value)
    && (job.mandate.allowedSupplierIds.Some? ==> quote.supplierId in job.mandate.allowedSupplierIds.value)
  }

  lemma EligibleIsFit(quote: Quote, job: Job, inputs: Inputs)
    ensures Eligible(quote, RankContext(job, inputs)) <==> Fits(quote, job, inputs.now, inputs.today)
  {
    hide Eligible;
    var ctx := RankContext(job, inputs);
    EligibleIff(quote, ctx);
    forall c ensures !Violates(c, quote, ctx) <== Fits(quote, job, inputs.now, inputs.today) {
    }
    if forall c :: !Violates(c, quote, ctx) {
      assert !Violates(SkuMismatch, quote, ctx) && !Violates(QuantityMismatch, quote, ctx);
      assert !Violates(CurrencyMismatch, quote, ctx) && !Violates(QuoteExpired, quote, ctx);
      assert !Violates(DeadlineViolated, quote, ctx) && !Violates(LimitExceeded, quote, ctx);
      assert !Violates(SupplierNotAllowed, quote, ctx);
    }
  }

  /** Some answer fits. */
  ghost predicate SomeFits(quotes: seq<Quote>, job: Job, inputs: Inputs) {
    exists q :: q in quotes && Fits(q, job, inputs.now, inputs.today)
  }

  /** An answer without a trusted risk, or one that fits and costs nothing. */
  ghost predicate Unrankable(quotes: seq<Quote>, job: Job, inputs: Inputs) {
    || (exists q :: q in quotes && q.supplierId !in inputs.risks)
    || (exists q :: q in quotes && Fits(q, job, inputs.now, inputs.today) && q.TotalCost() == 0.0)
  }

  lemma {:induction false} TrustedIff(quotes: seq<Quote>, risks: map<AgentId, real>)
    ensures Trusted(quotes, risks).Some? <==> forall q :: q in quotes ==> q.supplierId in risks
  {
    if quotes != [] {
      var init, last := quotes[..|quotes| - 1], quotes[|quotes| - 1];
      TrustedIff(init, risks);
      assert quotes == init + [last];
      assert last in quotes;
    }
  }

  lemma RiskAside(quote: Quote, risk: real, job: Job, now: Time, today: Day)
    ensures quote.(supplierRisk := risk).TotalCost() == quote.TotalCost()
    ensures Fits(quote.(supplierRisk := risk), job, now, today) == Fits(quote, job, now, today)
  {
  }

  /** The trusted risk changes nothing that decides eligibility. */
  lemma TrustedFits(quotes: seq<Quote>, job: Job, inputs: Inputs)
    requires Trusted(quotes, inputs.risks).Some?
    ensures var trusted := Trusted(quotes, inputs.risks).value;
            && (SomeFits(trusted, job, inputs) <==> SomeFits(quotes, job, inputs))
            && (Unrankable(trusted, job, inputs) <==> Unrankable(quotes, job, inputs))
  {
    hide Quote.TotalCost, Fits, Trusted;
    var trusted := Trusted(quotes, inputs.risks).value;
    TrustedAre(quotes, inputs.risks);
    forall i | 0 <= i < |quotes|
      ensures quotes[i] in quotes && trusted[i] in trusted && quotes[i].supplierId == trusted[i].supplierId
      ensures Fits(quotes[i], job, inputs.now, inputs.today) == Fits(trusted[i], job, inputs.now, inputs.today)
      ensures quotes[i].TotalCost() == trusted[i].TotalCost()
    {
      RiskAside(quotes[i], inputs.risks[quotes[i].supplierId], job, inputs.now, inputs.today);
    }
  }

  lemma FindsIff(quotes: seq<Quote>, job: Job, inputs: Inputs)
    ensures EligibleQuotes(quotes, RankContext(job, inputs)) != [] <==> SomeFits(quotes, job, inputs)
    ensures AllScorable(quotes, RankContext(job, inputs))
        <==> forall q :: q in quotes && Fits(q, job, inputs.now, inputs.today) ==> q.TotalCost() != 0.0
  {
    hide Eligible, Quote.TotalCost, Fits, EligibleQuotes;
    var ctx := RankContext(job, inputs);
    EligibleMembers(quotes, ctx);
    forall q ensures Eligible(q, ctx) <==> Fits(q, job, inputs.now, inputs.today) {
      EligibleIsFit(q, job, inputs);
    }
    var eligible := EligibleQuotes(quotes, ctx);
    assert eligible != [] ==> eligible[0] in eligible;
    forall q | q in quotes ensures exists i :: 0 <= i < |quotes| && quotes[i] == q {
    }
  }

  lemma CompareIff(quotes: seq<Quote>, job: Job, inputs: Inputs)
    requires forall q :: q in quotes ==> q.supplierId in inputs.risks
    ensures Compare(quotes, RankContext(job, inputs)).Err? <==> Unrankable(quotes, job, inputs)
    ensures Compare(quotes, RankContext(job, inputs)).Ok? ==>
              (Compare(quotes, RankContext(job, inputs)).value.recommendedQuoteId.Some? <==>
                SomeFits(quotes, job, inputs))
  {
    hide EligibleQuotes, AllScorable, Fits, Quote.TotalCost, Ranked, Preliminary;
    FindsIff(quotes, job, inputs);
    if Comparable(quotes, RankContext(job, inputs)) {
      CompareIsRanked(quotes, RankContext(job, inputs));
    }
  }

  lemma NoRisk(quotes: seq<Quote>, job: Job, inputs: Inputs)
    requires exists q :: q in quotes && q.supplierId !in inputs.risks
    ensures Unrankable(quotes, job, inputs)
  {
  }

  /** The rank node, from the answers alone. It raises iff an answer has no trusted risk or one that fits costs
      nothing. Otherwise it adds an error exactly when no answer fits. */
  lemma RankIff(job: Job, st: WorkflowState, inputs: Inputs)
    ensures RankNode(job, st, inputs).None? <==> Unrankable(st.quotes, job, inputs)
    ensures RankNode(job, st, inputs).Some? ==>
              && var next := RankNode(job, st, inputs).value;
              && next.errors == st.errors + (if SomeFits(st.quotes, job, inputs) then [] else [NoQuotePassed])
              && (HasRecommendation(next) <==> SomeFits(st.quotes, job, inputs))
  {
    hide Compare, SomeFits, Unrankable;
    TrustedIff(st.quotes, inputs.risks);
    if Trusted(st.quotes, inputs.risks).Some? {
      TrustedAre(st.quotes, inputs.risks);
      TrustedFits(st.quotes, job, inputs);
      CompareIff(Trusted(st.quotes, inputs.risks).value, job, inputs);
    } else {
      NoRisk(st.quotes, job, inputs);
    }
  }

  /******* Whole runs *******/

  /** The mandate permits requests at this instant, covers the category, and is not exceeded by the intent. */
  predicate MandatePasses(job: Job, now: Time) {
    && job.mandate.revokedAt.None? && job.mandate.validFrom <= now < job.mandate.expiresAt
    && SendRfq in job.mandate.allowedActions && SendRfq !in job.mandate.forbiddenActions
    && job.intent.product.category in job.mandate.allowedCategories
    && (job.intent.maxTotal.Some? ==> job.intent.maxTotal.value <= job.mandate.maxTotal)
  }

  function Contacts(job: Job, inputs: Node -> Inputs): seq<AgentId> {
    Discovered(inputs(Discover).registry, job)
  }

  /** The quotes that the contacted agents answered with. */
  function Answers(job: Job, inputs: Node -> Inputs): seq<Quote> {
    CollectedQuotes(Agents(inputs(RequestQuotes).registry, Contacts(job, inputs)), inputs(RequestQuotes).replies)
  }

  ghost predicate ReachesRanking(job: Job, inputs: Node -> Inputs) {
    && MandatePasses(job, inputs(Validate).now)
    && |Contacts(job, inputs)| >= job.minimumQuotes
    && |Answers(job, inputs)| >= job.minimumQuotes && Answers(job, inputs) != []
  }

  /** What the first three nodes log. */
  function RequestLog(job: Job, inputs: Node -> Inputs, valid: bool): seq<Event> {
    var agents := Agents(inputs(RequestQuotes).registry, Contacts(job, inputs));
    [MandateValidated(valid), SuppliersDiscovered(Contacts(job, inputs))] + RfqEvents(agents)
    + ReplyEvents(agents, inputs(RequestQuotes).replies) + [QuotesCollected(|agents|, |Answers(job, inputs)|)]
  }

  /** A run over these inputs, node by node. */
  lemma RunByNodes(job: Job, inputs: Node -> Inputs, st: WorkflowState)
    requires st.errors == [] && st.comparison.None?
    ensures var t := Run(Validate, job, st, inputs);
            var s3 := RequestNode(
              job, DiscoverNode(job, ValidateNode(job, st, inputs(Validate)), inputs(Discover)), inputs(RequestQuotes));
            && s3.quotes == Answers(job, inputs) && s3.comparison.None?
            && s3.events == st.events + RequestLog(job, inputs, MandatePasses(job, inputs(Validate).now))
            && if ReachesRanking(job, inputs) then
                 var rest := Run(Rank, job, s3, inputs);
                 s3.errors == [] && t.raised == rest.raised && t.states != []
                 && (rest.states != [] ==> t.states[|t.states| - 1] == rest.states[|rest.states| - 1])
               else !t.raised && t.states != [] && t.states[|t.states| - 1].status == Failed
  {
    hide Run, Discovered, Agents, CollectedQuotes, RfqEvents, ReplyEvents, RankNode;
    var s1 := ValidateNode(job, st, inputs(Validate));
    var s2 := DiscoverNode(job, s1, inputs(Discover));
    var s3 := RequestNode(job, s2, inputs(RequestQuotes));
    FinalizeAlone(job, s1, inputs);
    FinalizeAlone(job, s2, inputs);
    FinalizeAlone(job, s3, inputs);
    RunOnto(Validate, job, st, inputs, s1, Route(Validate, s1).value);
    if s1.errors == [] {
      RunOnto(Discover, job, s1, inputs, s2, Route(Discover, s2).value);
      if s2.errors == [] {
        RunOnto(RequestQuotes, job, s2, inputs, s3, Route(RequestQuotes, s3).value);
      }
    }
  }

  /** From the rank node on: the run raises there or ends at finalize, awaiting approval iff it recommends. */
  lemma RunFromRank(job: Job, inputs: Node -> Inputs, st: WorkflowState)
    requires st.errors == [] && st.comparison.None?
    ensures var t := Run(Rank, job, st, inputs);
            && (t.raised <==> RankNode(job, st, inputs(Rank)).None?)
            && (!t.raised ==>
                  && t.states != []
                  && var last, ranked := t.states[|t.states| - 1], RankNode(job, st, inputs(Rank)).value;
                  && last.quotes == ranked.quotes && ranked.comparison.Some?
                  && (last.status == AwaitingApproval <==> ranked.errors == [] && HasRecommendation(ranked))
                  && (HasRecommendation(ranked) ==>
                        && last.comparison ==
                             Some(ranked.comparison.value.(explanation := Narrated(inputs(Explain).narrative)))
                        && last.events == st.events + [
                             QuotesRanked(ranked.comparison.value.recommendedQuoteId), ComparisonExplained,
                             WorkflowCompleted(last.status)]))
  {
    hide Run, Compare, Trusted;
    if RankNode(job, st, inputs(Rank)).Some? {
      var s4 := RankNode(job, st, inputs(Rank)).value;
      FinalizeAlone(job, s4, inputs);
      RunOnto(Rank, job, st, inputs, s4, Route(Rank, s4).value);
      if HasRecommendation(s4) {
        var s5 := ExplainNode(s4, inputs(Explain)).value;
        FinalizeAlone(job, s5, inputs);
        RunOnto(Explain, job, s4, inputs, s5, Finalize);
      }
    } else {
      RaisesAt(Rank, job, st, inputs);
    }
  }

  lemma RaisesAt(node: Node, job: Job, st: WorkflowState, inputs: Node -> Inputs)
    requires RunNode(node, job, st, inputs(node)).None?
    ensures Run(node, job, st, inputs) == Trace([], [], true)
  {
  }

  /** How a run ends is decided by its inputs. It raises iff it reaches the ranking with an answer that has no
      trusted risk, or one that fits and costs nothing. Otherwise it ends awaiting approval iff it reaches the
      ranking and some answer fits: the right product, quantity and currency, valid after the instant of the
      ranking, in time from the day of the ranking, within both limits and from a supplier of the list. */
  lemma RunDecides(job: Job, inputs: Node -> Inputs, st: WorkflowState)
    requires st.errors == [] && st.comparison.None?
    ensures var t, answers := Run(Validate, job, st, inputs), Answers(job, inputs);
            && t.states != [] <== !t.raised
            && (t.raised <==> ReachesRanking(job, inputs) && Unrankable(answers, job, inputs(Rank)))
            && (!t.raised ==>
                  (t.states[|t.states| - 1].status == AwaitingApproval
                   <==> ReachesRanking(job, inputs) && SomeFits(answers, job, inputs(Rank))))
  {
    hide Run, RankNode, Unrankable, SomeFits, ReachesRanking, Answers;
    RunByNodes(job, inputs, st);
    if ReachesRanking(job, inputs) {
      var s3 := RequestNode(
        job, DiscoverNode(job, ValidateNode(job, st, inputs(Validate)), inputs(Discover)), inputs(RequestQuotes));
      RankIff(job, s3, inputs(Rank));
      RunFromRank(job, inputs, s3);
    }
  }

  /** What an awaiting run recommends. Its comparison is that of the answers with their trusted risks, at the
      instant and the day of the ranking, with the narrated explanation; its eligible items are exactly those
      that fit; and it recommends its head, which is one. */
  lemma AwaitingFits(job: Job, inputs: Node -> Inputs, st: WorkflowState)
    requires st.errors == [] && st.comparison.None? && !Run(Validate, job, st, inputs).raised
    requires var states := Run(Validate, job, st, inputs).states;
             states != [] && states[|states| - 1].status == AwaitingApproval
    ensures var states := Run(Validate, job, st, inputs).states;
            var last, answers, rank := states[|states| - 1], Answers(job, inputs), inputs(Rank);
            && |last.quotes| == |answers|
            && (forall i :: 0 <= i < |answers| ==>
                  && answers[i].supplierId in rank.risks
                  && last.quotes[i] == answers[i].(supplierRisk := rank.risks[answers[i].supplierId]))
            && last.comparison.Some? && var c := last.comparison.value;
            && c.explanation == Narrated(inputs(Explain).narrative)
            && (exists e :: Compare(last.quotes, Context(job.intent, job.mandate, rank.now, rank.today)) ==
                  Ok(c.(explanation := e)))
            && (forall item :: item in c.evaluatedQuotes ==>
                  item.eligible == Fits(item.quote, job, rank.now, rank.today))
            && c.evaluatedQuotes != [] && var head := c.evaluatedQuotes[0];
            && c.recommendedQuoteId == Some(head.quote.quoteId) && Fits(head.quote, job, rank.now, rank.today)
  {
    hide Run, Answers, ReachesRanking, Fits, Compare, Ranked, EligibleQuotes, AllScorable, Preliminary;
    RunByNodes(job, inputs, st);
    var s3 := RequestNode(
      job, DiscoverNode(job, ValidateNode(job, st, inputs(Validate)), inputs(Discover)), inputs(RequestQuotes));
    RunFromRank(job, inputs, s3);
    TrustedAre(s3.quotes, inputs(Rank).risks);
    var quotes, ctx := Trusted(s3.quotes, inputs(Rank).risks).value, RankContext(job, inputs(Rank));
    var c := Compare(quotes, ctx).value;
    RecommendedFits(quotes, job, inputs(Rank));
    assert c.(explanation := Narrated(inputs(Explain).narrative)).(explanation := c.explanation) == c;
  }

  lemma RecommendedFits(quotes: seq<Quote>, job: Job, inputs: Inputs)
    requires Compare(quotes, RankContext(job, inputs)).Ok?
    requires Compare(quotes, RankContext(job, inputs)).value.recommendedQuoteId.Some?
    ensures var c := Compare(quotes, RankContext(job, inputs)).value;
            && (forall item :: item in c.evaluatedQuotes ==>
                  item.eligible == Fits(item.quote, job, inputs.now, inputs.today))
            && c.evaluatedQuotes != [] && c.evaluatedQuotes[0].eligible
            && c.recommendedQuoteId == Some(c.evaluatedQuotes[0].quote.quoteId)
  {
    hide Fits, Compare, Eligible, AllScorable, EligibleQuotes;
    var ctx := RankContext(job, inputs);
    ExplanationIs(quotes, ctx);
    forall item | item in Compare(quotes, ctx).value.evaluatedQuotes
      ensures item.eligible == Fits(item.quote, job, inputs.now, inputs.today)
    {
      ItemsAre(quotes, ctx, item);
      EligibleIsFit(item.quote, job, inputs);
    }
  }

  /******* Who is asked, and who answered *******/

  /** Increasing positions below `n`, and `n` itself if it is taken. */
  lemma WithLast(init: seq<nat>, n: nat, taken: bool) returns (at: seq<nat>)
    requires forall i, j :: 0 <= i < j < |init| ==> init[i] < init[j]
    requires forall i :: 0 <= i < |init| ==> init[i] < n
    ensures at == init + (if taken then [n] else []) && forall i, j :: 0 <= i < j < |at| ==> at[i] < at[j]
    ensures forall k: nat :: k < n ==> (k in at <==> k in init)
    ensures n in at <==> taken
  {
    at := init + if taken then [n] else [];
    assert n !in init;
  }

  /** The contacts are the entries that serve the category and are on the mandate's list, each once and in the
      order of the registry: `at` are their positions. */
  lemma {:induction false} DiscoveredAt(registry: seq<AgentEntry>, job: Job) returns (at: seq<nat>)
    ensures |at| == |Discovered(registry, job)| && forall i, j :: 0 <= i < j < |at| ==> at[i] < at[j]
    ensures forall i :: 0 <= i < |at| ==>
              at[i] < |registry| && Discovered(registry, job)[i] == registry[at[i]].supplierId
    ensures forall k: nat :: k < |registry| ==>
              (k in at <==>
                && job.intent.product.category in registry[k].categories
                && (job.mandate.allowedSupplierIds.Some? ==>
                      registry[k].supplierId in job.mandate.allowedSupplierIds.value))
  {
    if registry == [] {
      at := [];
    } else {
      var n := |registry| - 1;
      var init := DiscoveredAt(registry[..n], job);
      at := WithLast(init, n, Serves(registry[n], job));
    }
  }

  lemma {:induction false} AskedPositions(registry: seq<AgentEntry>, ids: seq<AgentId>) returns (at: seq<nat>)
    ensures |at| == |Agents(registry, ids)| && forall i, j :: 0 <= i < j < |at| ==> at[i] < at[j]
    ensures forall i :: 0 <= i < |at| ==> at[i] < |ids| && Agents(registry, ids)[i] == ids[at[i]]
    ensures forall k: nat :: k < |ids| ==> (k in at <==> Registered(registry, ids[k]))
  {
    hide Registered;
    if ids == [] {
      at := [];
    } else {
      var n := |ids| - 1;
      var init := AskedPositions(registry, ids[..n]);
      assert Agents(registry, ids) ==
          Agents(registry, ids[..n]) + if Registered(registry, ids[n]) then [ids[n]] else [];
      hide Agents;
      at := WithLast(init, n, Registered(registry, ids[n]));
    }
  }

  /** The agents asked are the contacts that are registered, each once and in order. */
  lemma AskedAt(registry: seq<AgentEntry>, ids: seq<AgentId>) returns (at: seq<nat>)
    ensures |at| == |Agents(registry, ids)| && forall i, j :: 0 <= i < j < |at| ==> at[i] < at[j]
    ensures forall i :: 0 <= i < |at| ==> at[i] < |ids| && Agents(registry, ids)[i] == ids[at[i]]
    ensures forall k: nat :: k < |ids| ==>
              (k in at <==> exists entry :: entry in registry && entry.supplierId == ids[k])
  {
    at := AskedPositions(registry, ids);
    forall k: nat | k < |ids|
      ensures k in at <==> exists entry :: entry in registry && entry.supplierId == ids[k]
    {
      if Registered(registry, ids[k]) {
        var i :| 0 <= i < |registry| && registry[i].supplierId == ids[k];
        assert registry[i] in registry;
      }
    }
  }

  lemma {:induction false} AnswerPositions(agents: seq<AgentId>, replies: map<AgentId, Reply>) returns (at: seq<nat>)
    ensures |at| == |CollectedQuotes(agents, replies)| && forall i, j :: 0 <= i < j < |at| ==> at[i] < at[j]
    ensures forall i :: 0 <= i < |at| ==>
              at[i] < |agents| && ReplyOf(replies, agents[at[i]]) == Quoted(CollectedQuotes(agents, replies)[i])
    ensures forall k: nat :: k < |agents| ==> (k in at <==> ReplyOf(replies, agents[k]).Quoted?)
  {
    hide ReplyOf;
    if agents == [] {
      at := [];
    } else {
      var n := |agents| - 1;
      var init := AnswerPositions(agents[..n], replies);
      var reply := ReplyOf(replies, agents[n]);
      assert CollectedQuotes(agents, replies) ==
          CollectedQuotes(agents[..n], replies) + if reply.Quoted? then [reply.quote] else [];
      hide CollectedQuotes;
      at := WithLast(init, n, reply.Quoted?);
    }
  }

  /** The answers are the quotes of the agents that sent one, each once and in the order of the agents; an agent
      without a reply failed. */
  lemma AnsweredAt(agents: seq<AgentId>, replies: map<AgentId, Reply>) returns (at: seq<nat>)
    ensures |at| == |CollectedQuotes(agents, replies)| && forall i, j :: 0 <= i < j < |at| ==> at[i] < at[j]
    ensures forall i :: 0 <= i < |at| ==>
              && at[i] < |agents| && agents[at[i]] in replies
              && replies[agents[at[i]]] == Quoted(CollectedQuotes(agents, replies)[i])
    ensures forall k: nat :: k < |agents| ==> (k in at <==> agents[k] in replies && replies[agents[k]].Quoted?)
  {
    hide CollectedQuotes;
    at := AnswerPositions(agents, replies);
  }

  /******* The log of a run *******/

  lemma {:induction false} ReplyEventsAre(agents: seq<AgentId>, replies: map<AgentId, Reply>, e: Event)
    ensures e in ReplyEvents(agents, replies)
        <==> || (e.QuoteReceived? && e.supplierId in agents && ReplyOf(replies, e.supplierId).Quoted?
                 && ReplyOf(replies, e.supplierId).quote.quoteId == e.quoteId)
             || (e.SupplierRequestFailed? && e.supplierId in agents && ReplyOf(replies, e.supplierId).RequestFailed?)
  {
    if agents != [] {
      var n := |agents| - 1;
      ReplyEventsAre(agents[..n], replies, e);
      assert agents == agents[..n] + [agents[n]];
    }
  }

  lemma RfqEventsAre(agents: seq<AgentId>, e: Event)
    ensures e in RfqEvents(agents) <==> e.RfqSent? && e.supplierId in agents
  {
    if e.RfqSent? && e.supplierId in agents {
      var i :| 0 <= i < |agents| && agents[i] == e.supplierId;
      assert RfqEvents(agents)[i] == e;
    }
  }

  lemma InParts(a: seq<Event>, b: seq<Event>, c: seq<Event>, d: seq<Event>, f: seq<Event>, e: Event)
    ensures e in a + b + c + d + f <==> e in a || e in b || e in c || e in d || e in f
  {
  }

  lemma RequestLogHas(job: Job, inputs: Node -> Inputs, id: Option<Id>, e: Event)
    ensures var contacts, replies := Contacts(job, inputs), inputs(RequestQuotes).replies;
            var agents := Agents(inputs(RequestQuotes).registry, contacts);
            e in RequestLog(job, inputs, true) + [
              QuotesRanked(id), ComparisonExplained, WorkflowCompleted(AwaitingApproval)]
            <==> || e == MandateValidated(true) || e == SuppliersDiscovered(contacts)
                 || (e.RfqSent? && e.supplierId in agents)
                 || (e.SupplierRequestFailed? && e.supplierId in agents
                     && ReplyOf(replies, e.supplierId).RequestFailed?)
                 || (e.QuoteReceived? && e.supplierId in agents && ReplyOf(replies, e.supplierId).Quoted?
                     && ReplyOf(replies, e.supplierId).quote.quoteId == e.quoteId)
                 || e == QuotesCollected(|agents|, |Answers(job, inputs)|) || e == QuotesRanked(id)
                 || e == ComparisonExplained || e == WorkflowCompleted(AwaitingApproval)
  {
    hide Agents, Answers, Contacts, RfqEvents, ReplyEvents;
    var agents, replies := Agents(inputs(RequestQuotes).registry, Contacts(job, inputs)), inputs(RequestQuotes).replies;
    RfqEventsAre(agents, e);
    ReplyEventsAre(agents, replies, e);
    InParts([MandateValidated(true), SuppliersDiscovered(Contacts(job, inputs))], RfqEvents(agents),
            ReplyEvents(agents, replies), [QuotesCollected(|agents|, |Answers(job, inputs)|)],
            [QuotesRanked(id), ComparisonExplained, WorkflowCompleted(AwaitingApproval)], e);
  }

  lemma ValidRun(job: Job, inputs: Node -> Inputs)
    ensures ReachesRanking(job, inputs) ==> MandatePasses(job, inputs(Validate).now)
  {
  }

  /** What an awaiting run adds to the log: the mandate was found valid and the contacts discovered; every contacted
      agent was asked, and either failed, answered with a quote, or had none; then the counts, the recommendation,
      its explanation, and the end of the run, and nothing else. */
  lemma AwaitingIsLogged(job: Job, inputs: Node -> Inputs, st: WorkflowState, e: Event)
    requires st.errors == [] && st.comparison.None? && !Run(Validate, job, st, inputs).raised
    requires var states := Run(Validate, job, st, inputs).states;
             states != [] && states[|states| - 1].status == AwaitingApproval
    ensures var states := Run(Validate, job, st, inputs).states;
            var last, contacts := states[|states| - 1], Contacts(job, inputs);
            var agents, replies := Agents(inputs(RequestQuotes).registry, contacts), inputs(RequestQuotes).replies;
            && st.events <= last.events && last.comparison.Some?
            && (e in last.events[|st.events|..] <==>
                 || e == MandateValidated(true) || e == SuppliersDiscovered(contacts)
                 || (e.RfqSent? && e.supplierId in agents)
                 || (e.SupplierRequestFailed? && e.supplierId in agents
                     && ReplyOf(replies, e.supplierId).RequestFailed?)
                 || (e.QuoteReceived? && e.supplierId in agents && ReplyOf(replies, e.supplierId).Quoted?
                     && ReplyOf(replies, e.supplierId).quote.quoteId == e.quoteId)
                 || e == QuotesCollected(|agents|, |Answers(job, inputs)|)
                 || e == QuotesRanked(last.comparison.value.recommendedQuoteId)
                 || e == ComparisonExplained || e == WorkflowCompleted(AwaitingApproval))
  {
    hide Run, RankNode, RequestLog, Answers, Contacts, Agents, ReachesRanking;
    RunByNodes(job, inputs, st);
    var s3 := RequestNode(
      job, DiscoverNode(job, ValidateNode(job, st, inputs(Validate)), inputs(Discover)), inputs(RequestQuotes));
    RunFromRank(job, inputs, s3);
    var states := Run(Validate, job, st, inputs).states;
    var last := states[|states| - 1];
    var id := last.comparison.value.recommendedQuoteId;
    ValidRun(job, inputs);
    assert last.events == st.events + (RequestLog(job, inputs, true) + [
        QuotesRanked(id), ComparisonExplained, WorkflowCompleted(AwaitingApproval)]);
    RequestLogHas(job, inputs, id, e);
  }
}
