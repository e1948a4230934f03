/** Deterministic ranking of supplier quotes: hard constraints, rounded scores, stable sort. */
module Ranking {
  import opened Wrappers
  import opened Domain
  import opened StableSorting

  const HUNDRED := 100.0

  datatype RankingError = DivisionUndefined

  /******* Scores *******/

  function Clamp(v: real): real {
    if v < 0.0 then 0.0 else if v > HUNDRED then HUNDRED else v
  }

  /** Half-up rounding to two decimals; only clamped, hence non-negative, values reach it. */
  function Quantize(v: real): real {
    (v * 100.0 + 0.5).Floor as real / 100.0
  }

  function Score(v: real): real {
    Quantize(Clamp(v))
  }

  lemma ScoreRange(v: real)
    ensures 0.0 <= Score(v) <= HUNDRED
    ensures Abs(Score(v) - Clamp(v)) <= 0.005
  {
    var c := Clamp(v) * 100.0 + 0.5;
    assert c - 1.0 < c.Floor as real <= c;
    assert 0 <= c.Floor <= 10000;
  }

  /** A score is the value rounded half up to hundredths, and no other number is; what lies outside of 0 to
      100 scores 0 or 100. */
  lemma ScoreIsHalfUp(v: real, n: int)
    ensures 0.0 <= v <= 100.0 ==> (Score(v) == n as real / 100.0 <==> n as real - 0.5 <= v * 100.0 < n as real + 0.5)
    ensures v <= 0.0 ==> Score(v) == 0.0
    ensures v >= 100.0 ==> Score(v) == 100.0
  {
    var c := Clamp(v) * 100.0 + 0.5;
    assert c - 1.0 < c.Floor as real <= c;
    assert c.Floor == n <==> n as real <= c < n as real + 1.0;
    assert v <= 0.0 ==> c.Floor == 0;
    assert v >= 100.0 ==> c.Floor == 10000;
  }

  lemma ScoreMonotone(u: real, v: real)
    requires u <= v
    ensures Score(u) <= Score(v) && Clamp(u) <= Clamp(v)
  {
    var a, b := Clamp(u) * 100.0 + 0.5, Clamp(v) * 100.0 + 0.5;
    assert a.Floor as real <= a <= b < b.Floor as real + 1.0;
    assert a.Floor <= b.Floor;
  }

  /******* Hard constraints *******/

  /** What every quote of one comparison is judged against; the clock is an input. */
  datatype Context = Context(intent: Intent, mandate: Mandate, now: Time, today: Day)

  function Limit(intent: Intent, mandate: Mandate): real {
    if intent.maxTotal.Some? && intent.maxTotal.value < mandate.maxTotal
    then intent.maxTotal.value
    else mandate.maxTotal
  }

  predicate Violates(c: Constraint, quote: Quote, ctx: Context) {
    match c
    case SkuMismatch => quote.sku != ctx.intent.product.sku
    case QuantityMismatch => quote.quantity != ctx.intent.product.quantity
    case CurrencyMismatch => quote.currency != ctx.intent.currency
    case QuoteExpired => quote.validUntil <= ctx.now
    case DeadlineViolated => ctx.intent.deliveryBy < ctx.today || ctx.today + quote.deliveryDays > ctx.intent.deliveryBy
    case LimitExceeded => quote.TotalCost() > Limit(ctx.intent, ctx.mandate)
    case SupplierNotAllowed =>
      ctx.mandate.allowedSupplierIds.Some? && quote.supplierId !in ctx.mandate.allowedSupplierIds.value
  }

  function OneIf(violated: bool, c: Constraint): seq<Constraint> {
    if violated then [c] else []
  }

  /** The violated constraints in the order in which they are checked. */
  function Violations(quote: Quote, ctx: Context): seq<Constraint> {
    OneIf(Violates(SkuMismatch, quote, ctx), SkuMismatch)
    + OneIf(Violates(QuantityMismatch, quote, ctx), QuantityMismatch)
    + OneIf(Violates(CurrencyMismatch, quote, ctx), CurrencyMismatch)
    + OneIf(Violates(QuoteExpired, quote, ctx), QuoteExpired)
    + OneIf(Violates(DeadlineViolated, quote, ctx), DeadlineViolated)
    + OneIf(Violates(LimitExceeded, quote, ctx), LimitExceeded)
    + OneIf(Violates(SupplierNotAllowed, quote, ctx), SupplierNotAllowed)
  }

  /** A quote is rejected for exactly the hard constraints it violates. */
  lemma ViolationsExact(quote: Quote, ctx: Context, c: Constraint)
    ensures c in Violations(quote, ctx) <==> Violates(c, quote, ctx)
  {
    hide Violates, OneIf;
    forall k: Constraint ensures c in OneIf(Violates(k, quote, ctx), k) <==> c == k && Violates(k, quote, ctx) {
      OneIfHas(Violates(k, quote, ctx), k, c);
    }
  }

  lemma OneIfHas(violated: bool, k: Constraint, c: Constraint)
    ensures c in OneIf(violated, k) <==> c == k && violated
  {
  }

  method RejectionReasons(quote: Quote, ctx: Context)
    returns (reasons: seq<Constraint>)
    ensures reasons == Violations(quote, ctx)
  {
    hide Quote.TotalCost;
    reasons := [];
    if quote.sku != ctx.intent.product.sku { reasons := reasons + [SkuMismatch]; }
    ghost var step := OneIf(Violates(SkuMismatch, quote, ctx), SkuMismatch);
    assert reasons == step;
    if quote.quantity != ctx.intent.product.quantity { reasons := reasons + [QuantityMismatch]; }
    step := step + OneIf(Violates(QuantityMismatch, quote, ctx), QuantityMismatch);
    assert reasons == step;
    if quote.currency != ctx.intent.currency { reasons := reasons + [CurrencyMismatch]; }
    step := step + OneIf(Violates(CurrencyMismatch, quote, ctx), CurrencyMismatch);
    assert reasons == step;
    if quote.validUntil <= ctx.now { reasons := reasons + [QuoteExpired]; }
    step := step + OneIf(Violates(QuoteExpired, quote, ctx), QuoteExpired);
    assert reasons == step;
    var remainingDays := ctx.intent.deliveryBy - ctx.today;
    if remainingDays < 0 || quote.deliveryDays > remainingDays { reasons := reasons + [DeadlineViolated]; }
    step := step + OneIf(Violates(DeadlineViolated, quote, ctx), DeadlineViolated);
    assert reasons == step;
    var maxTotal := ctx.mandate.maxTotal;
    if ctx.intent.maxTotal.Some? && ctx.intent.maxTotal.value < maxTotal { maxTotal := ctx.intent.maxTotal.value; }
    if quote.TotalCost() > maxTotal { reasons := reasons + [LimitExceeded]; }
    step := step + OneIf(Violates(LimitExceeded, quote, ctx), LimitExceeded);
    assert reasons == step;
    if ctx.mandate.allowedSupplierIds.Some? && quote.supplierId !in ctx.mandate.allowedSupplierIds.value {
      reasons := reasons + [SupplierNotAllowed];
    }
    step := step + OneIf(Violates(SupplierNotAllowed, quote, ctx), SupplierNotAllowed);
    assert reasons == step;
  }

  predicate Eligible(quote: Quote, ctx: Context) {
    Violations(quote, ctx) == []
  }

  lemma EligibleIff(quote: Quote, ctx: Context)
    ensures Eligible(quote, ctx) <==> forall c :: !Violates(c, quote, ctx)
  {
  }

  /******* The comparison as a function *******/

  function Assess(quote: Quote, ctx: Context): EvaluatedQuote {
    EvaluatedQuote(quote, Eligible(quote, ctx), Violations(quote, ctx), None, None)
  }

  function Preliminary(quotes: seq<Quote>, ctx: Context): seq<EvaluatedQuote> {
    seq(|quotes|, i requires 0 <= i < |quotes| => Assess(quotes[i], ctx))
  }

  function EligibleQuotes(quotes: seq<Quote>, ctx: Context): seq<Quote> {
    if quotes == [] then []
    else
      var last := quotes[|quotes| - 1];
      EligibleQuotes(quotes[..|quotes| - 1], ctx) + if Eligible(last, ctx) then [last] else []
  }

  function MinCost(quotes: seq<Quote>): real
    requires quotes != []
  {
    var last := quotes[|quotes| - 1].TotalCost();
    if |quotes| == 1 then last
    else
      var rest := MinCost(quotes[..|quotes| - 1]);
      if last < rest then last else rest
  }

  function MinDelivery(quotes: seq<Quote>): nat
    requires quotes != []
  {
    var last := quotes[|quotes| - 1].deliveryDays;
    if |quotes| == 1 then last
    else
      var rest := MinDelivery(quotes[..|quotes| - 1]);
      if last < rest then last else rest
  }

  /** The five criteria before rounding. */
  function RawComponents(quote: Quote, minCost: real, minDelivery: nat): Components
    requires quote.TotalCost() != 0.0
  {
    Components(
      minCost / quote.TotalCost() * HUNDRED,
      if quote.deliveryDays == 0 then HUNDRED
      else (if minDelivery == 0 then 1 else minDelivery) as real / quote.deliveryDays as real * HUNDRED,
      quote.warrantyMonths as real / 24.0 * HUNDRED,
      (1.0 - quote.supplierRisk) * HUNDRED,
      quote.paymentDelayDays as real / 30.0 * HUNDRED)
  }

  function Rounded(c: Components): Components {
    Components(Score(c.price), Score(c.delivery), Score(c.warranty), Score(c.risk), Score(c.paymentTerms))
  }

  function Clamped(c: Components): Components {
    Components(Clamp(c.price), Clamp(c.delivery), Clamp(c.warranty), Clamp(c.risk), Clamp(c.paymentTerms))
  }

  function Weighted(w: real, x: real): real {
    x * w
  }

  function Products(ws: seq<real>, xs: seq<real>): seq<real>
    requires |ws| == |xs|
  {
    seq(|ws|, i requires 0 <= i < |ws| => Weighted(ws[i], xs[i]))
  }

  function Total(terms: seq<real>): real {
    if terms == [] then 0.0 else Total(terms[..|terms| - 1]) + terms[|terms| - 1]
  }

  function WeightList(w: Weights): seq<real> {
    [w.price, w.delivery, w.warranty, w.risk, w.paymentTerms]
  }

  function ScoreList(c: Components): seq<real> {
    [c.price, c.delivery, c.warranty, c.risk, c.paymentTerms]
  }

  function WeightedSum(w: Weights, c: Components): real {
    Total(Products(WeightList(w), ScoreList(c)))
  }

  lemma TotalOfFive(a: real, b: real, c: real, d: real, e: real)
    ensures Total([a, b, c, d, e]) == a + b + c + d + e
  {
    var ts := [a, b, c, d, e];
    assert ts[..4][..3] == ts[..3] && ts[..3][..2] == ts[..2] && ts[..2][..1] == ts[..1] && ts[..1][..0] == [];
    assert Total(ts[..1]) == a;
    assert Total(ts[..2]) == Total(ts[..1]) + b;
    assert Total(ts[..3]) == Total(ts[..2]) + c;
    assert Total(ts[..4]) == Total(ts[..3]) + d;
  }

  lemma WeightedSumExpanded(w: Weights, c: Components)
    ensures WeightedSum(w, c)
         == c.price * w.price + c.delivery * w.delivery + c.warranty * w.warranty + c.risk * w.risk
            + c.paymentTerms * w.paymentTerms
  {
    var ps := [Weighted(w.price, c.price), Weighted(w.delivery, c.delivery), Weighted(w.warranty, c.warranty),
               Weighted(w.risk, c.risk), Weighted(w.paymentTerms, c.paymentTerms)];
    TotalOfFive(ps[0], ps[1], ps[2], ps[3], ps[4]);
    assert Products(WeightList(w), ScoreList(c)) == ps;
  }

  /** The total the code stores: rounded components, weighted, rounded again. */
  function TotalScore(quote: Quote, w: Weights, minCost: real, minDelivery: nat): real
    requires quote.TotalCost() != 0.0
  {
    Score(WeightedSum(w, Rounded(RawComponents(quote, minCost, minDelivery))))
  }

  /** The total without any rounding. */
  function ExactScore(quote: Quote, w: Weights, minCost: real, minDelivery: nat): real
    requires quote.TotalCost() != 0.0
  {
    Clamp(WeightedSum(w, Clamped(RawComponents(quote, minCost, minDelivery))))
  }

  predicate Scorable(quote: Quote, ctx: Context) {
    Eligible(quote, ctx) ==> quote.TotalCost() != 0.0
  }

  predicate AllScorable(quotes: seq<Quote>, ctx: Context) {
    forall i :: 0 <= i < |quotes| ==> Scorable(quotes[i], ctx)
  }

  function Evaluate(quote: Quote, ctx: Context, minCost: real, minDelivery: nat): EvaluatedQuote
    requires Scorable(quote, ctx)
  {
    if !Eligible(quote, ctx) then Assess(quote, ctx)
    else EvaluatedQuote(
      quote, true, [],
      Some(Rounded(RawComponents(quote, minCost, minDelivery))),
      Some(TotalScore(quote, ctx.intent.weights, minCost, minDelivery)))
  }

  function EvaluateAll(quotes: seq<Quote>, ctx: Context, minCost: real, minDelivery: nat): seq<EvaluatedQuote>
    requires AllScorable(quotes, ctx)
  {
    seq(|quotes|, i requires 0 <= i < |quotes| => Evaluate(quotes[i], ctx, minCost, minDelivery))
  }

  /** `total_score or -1`: no score and a score of zero both become -1. */
  function ScoreKey(item: EvaluatedQuote): real {
    if item.totalScore.None? || item.totalScore.value == 0.0 then -1.0 else item.totalScore.value
  }

  /** The sort key of `a` is greater than the one of `b`. */
  predicate Above(a: EvaluatedQuote, b: EvaluatedQuote) {
    if a.eligible != b.eligible then a.eligible
    else if ScoreKey(a) != ScoreKey(b) then ScoreKey(a) > ScoreKey(b)
    else a.quote.TotalCost() < b.quote.TotalCost()
  }

  predicate IsEligible(item: EvaluatedQuote) {
    item.eligible
  }

  function FirstEligible(items: seq<EvaluatedQuote>): Option<EvaluatedQuote> {
    if items == [] then None
    else if items[0].eligible then Some(items[0])
    else FirstEligible(items[1..])
  }

  function Ranked(quotes: seq<Quote>, ctx: Context): seq<EvaluatedQuote>
    requires EligibleQuotes(quotes, ctx) != []
    requires AllScorable(quotes, ctx)
  {
    var eligible := EligibleQuotes(quotes, ctx);
    Sort(EvaluateAll(quotes, ctx, MinCost(eligible), MinDelivery(eligible)), Above)
  }

  function Recommend(item: EvaluatedQuote): Explanation {
    Recommends(item.quote.supplierName, item.totalScore, item.quote.TotalCost(), item.quote.currency,
        item.quote.deliveryDays)
  }

  /** What `compare_quotes` returns; an eligible quote that costs nothing makes the price
      component divide by zero. */
  function Compare(quotes: seq<Quote>, ctx: Context): Result<Comparison, RankingError> {
    var eligible := EligibleQuotes(quotes, ctx);
    if eligible == [] then Ok(Comparison(Preliminary(quotes, ctx), None, NothingEligible, RANKING_VERSION))
    else if !AllScorable(quotes, ctx) then Err(DivisionUndefined)
    else
      var items := Ranked(quotes, ctx);
      match FirstEligible(items)
      case Some(best) => Ok(Comparison(items, Some(best.quote.quoteId), Recommend(best), RANKING_VERSION))
      case None => Ok(Comparison(items, None, NothingEligible, RANKING_VERSION))
  }

  /******* The comparison as the program computes it *******/

  method FindMinimums(eligible: seq<Quote>) returns (minimumCost: real, minimumDelivery: nat)
    requires eligible != []
    ensures minimumCost == MinCost(eligible) && minimumDelivery == MinDelivery(eligible)
  {
    minimumCost, minimumDelivery := eligible[0].TotalCost(), eligible[0].deliveryDays;
    for i := 1 to |eligible|
      invariant minimumCost == MinCost(eligible[..i]) && minimumDelivery == MinDelivery(eligible[..i])
    {
      assert eligible[..i + 1][..i] == eligible[..i];
      if eligible[i].TotalCost() < minimumCost { minimumCost := eligible[i].TotalCost(); }
      if eligible[i].deliveryDays < minimumDelivery { minimumDelivery := eligible[i].deliveryDays; }
    }
    assert eligible[..|eligible|] == eligible;
  }

  method AssessQuotes(quotes: seq<Quote>, ctx: Context) returns (preliminary: seq<EvaluatedQuote>, eligible: seq<Quote>)
    ensures preliminary == Preliminary(quotes, ctx) && eligible == EligibleQuotes(quotes, ctx)
  {
    preliminary, eligible := [], [];
    for i := 0 to |quotes|
      invariant preliminary == Preliminary(quotes[..i], ctx)
      invariant eligible == EligibleQuotes(quotes[..i], ctx)
    {
      assert quotes[..i + 1][..i] == quotes[..i];
      var reasons := RejectionReasons(quotes[i], ctx);
      preliminary := preliminary + [EvaluatedQuote(quotes[i], reasons == [], reasons, None, None)];
      if reasons == [] { eligible := eligible + [quotes[i]]; }
    }
    assert quotes[..|quotes|] == quotes;
  }

  method ScoreQuote(quote: Quote, ctx: Context, minimumCost: real, minimumDelivery: nat) returns (item: EvaluatedQuote)
    requires Eligible(quote, ctx) && quote.TotalCost() != 0.0
    ensures item == Evaluate(quote, ctx, minimumCost, minimumDelivery)
  {
    var price := minimumCost / quote.TotalCost() * HUNDRED;
    var delivery :=
      if quote.deliveryDays == 0 then HUNDRED
      else (if minimumDelivery == 0 then 1 else minimumDelivery) as real / quote.deliveryDays as real * HUNDRED;
    var warranty := quote.warrantyMonths as real / 24.0 * HUNDRED;
    var risk := (1.0 - quote.supplierRisk) * HUNDRED;
    var paymentTerms := quote.paymentDelayDays as real / 30.0 * HUNDRED;
    var scores := Components(Score(price), Score(delivery), Score(warranty), Score(risk), Score(paymentTerms));
    assert scores == Rounded(RawComponents(quote, minimumCost, minimumDelivery));
    var weights := ctx.intent.weights;
    WeightedSumExpanded(weights, scores);
    var total := Score(
      scores.price * weights.price + scores.delivery * weights.delivery + scores.warranty * weights.warranty
      + scores.risk * weights.risk + scores.paymentTerms * weights.paymentTerms);
    item := EvaluatedQuote(quote, true, [], Some(scores), Some(total));
  }

  method ScoreQuotes(preliminary: seq<EvaluatedQuote>, ghost quotes: seq<Quote>, ctx: Context, minimumCost: real,
      minimumDelivery: nat)
    returns (ok: bool, evaluated: seq<EvaluatedQuote>)
    requires preliminary == Preliminary(quotes, ctx)
    ensures ok == AllScorable(quotes, ctx)
    ensures ok ==> evaluated == EvaluateAll(quotes, ctx, minimumCost, minimumDelivery)
  {
    evaluated := [];
    for i := 0 to |preliminary|
      invariant AllScorable(quotes[..i], ctx)
      invariant evaluated == EvaluateAll(quotes[..i], ctx, minimumCost, minimumDelivery)
    {
      assert quotes[..i + 1] == quotes[..i] + [quotes[i]];
      var item := preliminary[i];
      if !item.eligible {
        evaluated := evaluated + [item];
      } else if item.quote.TotalCost() == 0.0 {
        assert !Scorable(quotes[i], ctx);
        return false, [];
      } else {
        var scored := ScoreQuote(item.quote, ctx, minimumCost, minimumDelivery);
        evaluated := evaluated + [scored];
      }
    }
    assert quotes[..|quotes|] == quotes;
    ok := true;
  }

  /** `compare_quotes`. */
  method CompareQuotes(quotes: seq<Quote>, ctx: Context) returns (r: Result<Comparison, RankingError>)
    ensures r == Compare(quotes, ctx)
  {
    var preliminary, eligible := AssessQuotes(quotes, ctx);
    if eligible == [] {
      return Ok(Comparison(preliminary, None, NothingEligible, RANKING_VERSION));
    }
    var minimumCost, minimumDelivery := FindMinimums(eligible);
    var ok, evaluated := ScoreQuotes(preliminary, quotes, ctx, minimumCost, minimumDelivery);
    if !ok {
      return Err(DivisionUndefined);
    }
    evaluated := Sort(evaluated, Above);
    match FirstEligible(evaluated) {
      case Some(recommended) =>
        r := Ok(Comparison(evaluated, Some(recommended.quote.quoteId), Recommend(recommended), RANKING_VERSION));
      case None =>
        r := Ok(Comparison(evaluated, None, NothingEligible, RANKING_VERSION));
    }
  }
}
