/** What the ranking promises: a best recommendation, bounded rounding, dominance, and
    independence from ineligible quotes and from the input order. */
module RankingProperties {
  import opened Wrappers
  import opened Domain
  import opened StableSorting
  import opened Ranking

  ghost predicate Comparable(quotes: seq<Quote>, ctx: Context) {
    EligibleQuotes(quotes, ctx) != [] && AllScorable(quotes, ctx)
  }

  function BestCost(quotes: seq<Quote>, ctx: Context): real
    requires EligibleQuotes(quotes, ctx) != []
  {
    MinCost(EligibleQuotes(quotes, ctx))
  }

  function BestDelivery(quotes: seq<Quote>, ctx: Context): nat
    requires EligibleQuotes(quotes, ctx) != []
  {
    MinDelivery(EligibleQuotes(quotes, ctx))
  }

  function Evaluated(quotes: seq<Quote>, ctx: Context): seq<EvaluatedQuote>
    requires EligibleQuotes(quotes, ctx) != [] && AllScorable(quotes, ctx)
  {
    EvaluateAll(quotes, ctx, BestCost(quotes, ctx), BestDelivery(quotes, ctx))
  }

  /** The total score of an eligible quote within the comparison of `quotes`. */
  function TotalIn(quote: Quote, quotes: seq<Quote>, ctx: Context): real
    requires EligibleQuotes(quotes, ctx) != [] && quote.TotalCost() != 0.0
  {
    TotalScore(quote, ctx.intent.weights, BestCost(quotes, ctx), BestDelivery(quotes, ctx))
  }

  function ExactIn(quote: Quote, quotes: seq<Quote>, ctx: Context): real
    requires EligibleQuotes(quotes, ctx) != [] && quote.TotalCost() != 0.0
  {
    ExactScore(quote, ctx.intent.weights, BestCost(quotes, ctx), BestDelivery(quotes, ctx))
  }

  /******* The order *******/

  lemma AboveIsOrder()
    ensures StrictWeakOrder(Above)
  {
    forall a, b | Above(a, b) ensures !Above(b, a) {
    }
    forall a, b, c | Above(a, c) ensures Above(a, b) || Above(b, c) {
    }
  }

  /** Sending a score of zero to -1 never reorders scored quotes: the key orders by total score,
      then by cost. */
  lemma KeyFaithful(a: EvaluatedQuote, b: EvaluatedQuote)
    requires a.eligible && b.eligible && a.totalScore.Some? && b.totalScore.Some?
    requires a.totalScore.value >= 0.0 && b.totalScore.value >= 0.0
    ensures Above(a, b) <==>
            a.totalScore.value > b.totalScore.value
            || (a.totalScore.value == b.totalScore.value && a.quote.TotalCost() < b.quote.TotalCost())
  {
  }

  lemma {:induction false} EligibleMembers(quotes: seq<Quote>, ctx: Context)
    ensures forall q :: q in EligibleQuotes(quotes, ctx) <==> q in quotes && Eligible(q, ctx)
  {
    if quotes != [] {
      EligibleMembers(quotes[..|quotes| - 1], ctx);
      assert quotes == quotes[..|quotes| - 1] + [quotes[|quotes| - 1]];
    }
  }

  /** The evaluation of an eligible quote carries its total score, which lies in [0, 100]. */
  lemma EvaluatedEligible(quotes: seq<Quote>, ctx: Context, i: nat)
    requires Comparable(quotes, ctx) && i < |quotes|
    ensures Evaluated(quotes, ctx)[i].quote == quotes[i]
    ensures Evaluated(quotes, ctx)[i].eligible == Eligible(quotes[i], ctx)
    ensures Eligible(quotes[i], ctx) ==>
              && Evaluated(quotes, ctx)[i].totalScore == Some(TotalIn(quotes[i], quotes, ctx))
              && 0.0 <= TotalIn(quotes[i], quotes, ctx) <= HUNDRED
  {
    assert quotes[i] in quotes;
    if Eligible(quotes[i], ctx) {
      ScoreRange(WeightedSum(ctx.intent.weights,
                             Rounded(RawComponents(quotes[i], BestCost(quotes, ctx), BestDelivery(quotes, ctx)))));
    }
  }

  /** What the sort needs to know about its items. */
  ghost predicate WellScored(items: seq<EvaluatedQuote>) {
    forall i :: 0 <= i < |items| && items[i].eligible ==> items[i].totalScore.Some? && items[i].totalScore.value >= 0.0
  }

  /** `a` has the higher score, or the same score at a lower cost. */
  ghost predicate Better(a: EvaluatedQuote, b: EvaluatedQuote)
    requires a.totalScore.Some? && b.totalScore.Some?
  {
    || a.totalScore.value > b.totalScore.value
    || (a.totalScore.value == b.totalScore.value && a.quote.TotalCost() < b.quote.TotalCost())
  }

  lemma EvaluatedWellScored(quotes: seq<Quote>, ctx: Context)
    requires Comparable(quotes, ctx)
    ensures WellScored(Evaluated(quotes, ctx))
    ensures forall i :: 0 <= i < |quotes| ==>
              Evaluated(quotes, ctx)[i].quote == quotes[i]
              && Evaluated(quotes, ctx)[i].eligible == Eligible(quotes[i], ctx)
    ensures exists i :: 0 <= i < |quotes| && Eligible(quotes[i], ctx)
  {
    forall i | 0 <= i < |quotes|
      ensures Evaluated(quotes, ctx)[i].quote == quotes[i]
      ensures Evaluated(quotes, ctx)[i].eligible == Eligible(quotes[i], ctx)
      ensures Eligible(quotes[i], ctx) ==>
                Evaluated(quotes, ctx)[i].totalScore.Some? && Evaluated(quotes, ctx)[i].totalScore.value >= 0.0
    {
      EvaluatedEligible(quotes, ctx, i);
    }
    EligibleMembers(quotes, ctx);
    assert EligibleQuotes(quotes, ctx)[0] in quotes;
  }

  lemma HeadOfSort(items: seq<EvaluatedQuote>) returns (i: nat)
    requires WellScored(items) && exists k :: 0 <= k < |items| && items[k].eligible
    ensures i < |items| == |Sort(items, Above)| && items[i].eligible && Sort(items, Above)[0] == items[i]
    ensures forall j :: 0 <= j < |items| && j != i && items[j].eligible ==>
              Better(items[i], items[j]) || (!Better(items[j], items[i]) && i < j)
  {
    AboveIsOrder();
    i := SortHead(items, Above);
    assert IsHead(items, i, Above);
    forall j | 0 <= j < |items| && j != i && items[j].eligible
      ensures Better(items[i], items[j]) || (!Better(items[j], items[i]) && i < j)
    {
      KeyFaithful(items[i], items[j]);
      KeyFaithful(items[j], items[i]);
    }
  }

  /** The comparison raises exactly when an eligible quote costs nothing. */
  lemma RaisesIff(quotes: seq<Quote>, ctx: Context)
    ensures Compare(quotes, ctx).Err? <==> exists q :: q in quotes && Eligible(q, ctx) && q.TotalCost() == 0.0
  {
    hide Eligible, Ranked, Quote.TotalCost;
    EligibleMembers(quotes, ctx);
    if q :| q in quotes && Eligible(q, ctx) && q.TotalCost() == 0.0 {
      assert q in EligibleQuotes(quotes, ctx);
      var i :| 0 <= i < |quotes| && quotes[i] == q;
      assert !Scorable(quotes[i], ctx);
    } else {
      forall i | 0 <= i < |quotes| ensures Scorable(quotes[i], ctx) {
        assert quotes[i] in quotes;
      }
    }
  }

  /** With an eligible quote the comparison is the stable sort of the evaluated input, and its head
      is the recommendation. */
  lemma CompareIsRanked(quotes: seq<Quote>, ctx: Context)
    requires Comparable(quotes, ctx)
    ensures |Ranked(quotes, ctx)| == |quotes| > 0 && Ranked(quotes, ctx)[0].eligible
    ensures Compare(quotes, ctx) == Ok(Comparison(
              Ranked(quotes, ctx), Some(Ranked(quotes, ctx)[0].quote.quoteId),
              Recommend(Ranked(quotes, ctx)[0]), RANKING_VERSION))
  {
    EvaluatedWellScored(quotes, ctx);
    var i := HeadOfSort(Evaluated(quotes, ctx));
    SortPermutes(Evaluated(quotes, ctx), Above);
  }

  /** The recommendation: highest total score, then lowest total cost, then earliest input. */
  lemma RecommendationIsBest(quotes: seq<Quote>, ctx: Context) returns (i: nat)
    requires Comparable(quotes, ctx)
    ensures i < |quotes| && Eligible(quotes[i], ctx) && WellScored(Evaluated(quotes, ctx))
    ensures Compare(quotes, ctx).Ok?
    ensures Compare(quotes, ctx).value.recommendedQuoteId == Some(quotes[i].quoteId)
    ensures Compare(quotes, ctx).value.evaluatedQuotes != []
    ensures Compare(quotes, ctx).value.evaluatedQuotes[0] == Evaluated(quotes, ctx)[i]
    ensures forall k :: 0 <= k < |quotes| ==> Evaluated(quotes, ctx)[k].eligible == Eligible(quotes[k], ctx)
    ensures forall j :: 0 <= j < |quotes| && j != i && Evaluated(quotes, ctx)[j].eligible ==>
              || Better(Evaluated(quotes, ctx)[i], Evaluated(quotes, ctx)[j])
              || (!Better(Evaluated(quotes, ctx)[j], Evaluated(quotes, ctx)[i]) && i < j)
  {
    EvaluatedWellScored(quotes, ctx);
    CompareIsRanked(quotes, ctx);
    i := HeadOfSort(Evaluated(quotes, ctx));
  }

  /** The output is the one stable descending arrangement of the evaluated input: a permutation,
      eligible quotes first, ties in input order, and no other list has these properties. */
  lemma RankedIsTheStableSort(quotes: seq<Quote>, ctx: Context, other: seq<EvaluatedQuote>)
    requires Comparable(quotes, ctx)
    ensures multiset(Ranked(quotes, ctx)) == multiset(Evaluated(quotes, ctx))
    ensures Sorted(Ranked(quotes, ctx), Above)
    ensures forall x :: TieClass(Ranked(quotes, ctx), x, Above) == TieClass(Evaluated(quotes, ctx), x, Above)
    ensures forall i, j :: 0 <= i < j < |Ranked(quotes, ctx)| && Ranked(quotes, ctx)[j].eligible ==>
        Ranked(quotes, ctx)[i].eligible
    ensures (&& Sorted(other, Above)
             && forall x :: TieClass(other, x, Above) == TieClass(Evaluated(quotes, ctx), x, Above))
            ==> other == Ranked(quotes, ctx)
  {
    var e := Evaluated(quotes, ctx);
    AboveIsOrder();
    SortPermutes(e, Above);
    SortSorted(e, Above);
    forall x ensures TieClass(Ranked(quotes, ctx), x, Above) == TieClass(e, x, Above) {
      SortStable(e, x, Above);
    }
    if Sorted(other, Above) && (forall x :: TieClass(other, x, Above) == TieClass(e, x, Above)) {
      StableSortUnique(other, Ranked(quotes, ctx), Above);
    }
  }

  ghost predicate RanksBefore(items: seq<EvaluatedQuote>, a: Quote, b: Quote) {
    forall i, j :: 0 <= i < |items| && 0 <= j < |items| && items[i].quote == a && items[j].quote == b ==> i < j
  }

  lemma BetterSortsFirst(items: seq<EvaluatedQuote>, i: nat, j: nat)
    requires WellScored(items) && Sorted(items, Above) && i < |items| && j < |items|
    requires items[i].eligible && items[j].eligible && Better(items[i], items[j])
    ensures i < j
  {
    KeyFaithful(items[i], items[j]);
    assert Above(items[i], items[j]) && !Above(items[j], items[i]);
  }

  lemma WellScoredSort(items: seq<EvaluatedQuote>)
    requires WellScored(items)
    ensures WellScored(Sort(items, Above)) && Sorted(Sort(items, Above), Above)
    ensures forall x :: x in Sort(items, Above) ==> x in items
  {
    AboveIsOrder();
    SortSorted(items, Above);
    SortPermutes(items, Above);
    forall x | x in Sort(items, Above) ensures x in items {
      assert x in multiset(items);
    }
    forall i | 0 <= i < |Sort(items, Above)| && Sort(items, Above)[i].eligible
      ensures Sort(items, Above)[i].totalScore.Some? && Sort(items, Above)[i].totalScore.value >= 0.0
    {
      assert Sort(items, Above)[i] in items;
    }
  }

  lemma RankedItem(quotes: seq<Quote>, ctx: Context, item: EvaluatedQuote)
    requires Comparable(quotes, ctx) && item in Evaluated(quotes, ctx) && Eligible(item.quote, ctx)
    ensures item.quote in quotes && item.eligible && item.quote.TotalCost() != 0.0
    ensures item.totalScore == Some(TotalIn(item.quote, quotes, ctx))
  {
    var p :| 0 <= p < |quotes| && Evaluated(quotes, ctx)[p] == item;
    EvaluatedEligible(quotes, ctx, p);
  }

  lemma HigherKeyRanksBefore(quotes: seq<Quote>, ctx: Context, a: Quote, b: Quote)
    requires Comparable(quotes, ctx)
    requires a in quotes && b in quotes && Eligible(a, ctx) && Eligible(b, ctx)
    requires TotalIn(a, quotes, ctx) > TotalIn(b, quotes, ctx)
             || (TotalIn(a, quotes, ctx) == TotalIn(b, quotes, ctx) && a.TotalCost() < b.TotalCost())
    ensures RanksBefore(Ranked(quotes, ctx), a, b)
  {
    var r := Ranked(quotes, ctx);
    EvaluatedWellScored(quotes, ctx);
    WellScoredSort(Evaluated(quotes, ctx));
    forall i, j | 0 <= i < |r| && 0 <= j < |r| && r[i].quote == a && r[j].quote == b ensures i < j {
      RankedItem(quotes, ctx, r[i]);
      RankedItem(quotes, ctx, r[j]);
      BetterSortsFirst(r, i, j);
    }
  }

  /******* Rounding *******/

  lemma MulMonotone(x: real, y: real, w: real)
    requires w >= 0.0 && x <= y
    ensures x * w <= y * w
  {
    assert (y - x) * w >= 0.0;
  }

  lemma WeightedUpper(w: real, x: real, y: real, h: real)
    requires w >= 0.0 && x <= y + h
    ensures Weighted(w, x) <= Weighted(w, y) + Weighted(w, h)
  {
    MulMonotone(x, y + h, w);
  }

  lemma WeightedError(w: real, x: real, y: real, h: real)
    requires w >= 0.0 && Abs(x - y) <= h
    ensures Abs(Weighted(w, x) - Weighted(w, y)) <= Weighted(w, h)
  {
    WeightedUpper(w, x, y, h);
    WeightedUpper(w, y, x, h);
  }

  lemma ProductError(ws: seq<real>, xs: seq<real>, ys: seq<real>, h: real, i: nat)
    requires |ws| == |xs| == |ys| && i < |ws| && ws[i] >= 0.0 && Abs(xs[i] - ys[i]) <= h
    ensures Abs(Products(ws, xs)[i] - Products(ws, ys)[i]) <= Weighted(ws[i], h)
  {
    WeightedError(ws[i], xs[i], ys[i], h);
  }

  lemma {:induction false} TotalError(ps: seq<real>, qs: seq<real>, bounds: seq<real>)
    requires |ps| == |qs| == |bounds|
    requires forall i :: 0 <= i < |ps| ==> Abs(ps[i] - qs[i]) <= bounds[i]
    ensures Abs(Total(ps) - Total(qs)) <= Total(bounds)
  {
    if ps != [] {
      var n := |ps| - 1;
      TotalError(ps[..n], qs[..n], bounds[..n]);
    }
  }

  lemma {:induction false} TotalScaled(ws: seq<real>, h: real, bounds: seq<real>)
    requires |bounds| == |ws| && forall i :: 0 <= i < |ws| ==> bounds[i] == Weighted(ws[i], h)
    ensures Total(bounds) == Weighted(Total(ws), h)
  {
    if ws != [] {
      var n := |ws| - 1;
      TotalScaled(ws[..n], h, bounds[..n]);
      WeightedAdd(Total(ws[..n]), ws[n], h);
    }
  }

  lemma WeightedAdd(v: real, w: real, h: real)
    ensures Weighted(v + w, h) == Weighted(v, h) + Weighted(w, h)
  {
  }

  /** Factors that are each off by at most `h` put a weighted sum off by at most `h` per unit of weight. */
  lemma ProductsError(ws: seq<real>, xs: seq<real>, ys: seq<real>, h: real, bounds: seq<real>)
    requires |ws| == |xs| == |ys| == |bounds|
    requires forall i :: 0 <= i < |ws| ==> ws[i] >= 0.0 && Abs(xs[i] - ys[i]) <= h
    requires forall i :: 0 <= i < |ws| ==> bounds[i] == Weighted(ws[i], h)
    ensures Abs(Total(Products(ws, xs)) - Total(Products(ws, ys))) <= Weighted(Total(ws), h)
  {
    var ps, qs := Products(ws, xs), Products(ws, ys);
    forall i | 0 <= i < |ws| ensures Abs(ps[i] - qs[i]) <= bounds[i] {
      ProductError(ws, xs, ys, h, i);
    }
    TotalError(ps, qs, bounds);
    TotalScaled(ws, h, bounds);
  }

  lemma WeightedSumError(w: Weights, c: Components, h: real)
    requires w.Valid() && h == 0.005
    ensures Abs(WeightedSum(w, Rounded(c)) - WeightedSum(w, Clamped(c))) <= Weighted(w.Sum(), h)
  {
    ComponentErrors(c, h);
    var ws := WeightList(w);
    var bounds := seq(|ws|, i requires 0 <= i < |ws| => Weighted(ws[i], h));
    ProductsError(ws, ScoreList(Rounded(c)), ScoreList(Clamped(c)), h, bounds);
    TotalOfFive(w.price, w.delivery, w.warranty, w.risk, w.paymentTerms);
  }

  lemma ComponentErrors(c: Components, h: real)
    requires h == 0.005
    ensures forall i :: 0 <= i < 5 ==> Abs(ScoreList(Rounded(c))[i] - ScoreList(Clamped(c))[i]) <= h
  {
    ScoreRange(c.price);
    ScoreRange(c.delivery);
    ScoreRange(c.warranty);
    ScoreRange(c.risk);
    ScoreRange(c.paymentTerms);
  }

  lemma ClampContracts(x: real, y: real)
    ensures Abs(Clamp(x) - Clamp(y)) <= Abs(x - y)
  {
  }

  lemma TwoStages(x: real, y: real, bound: real)
    requires Abs(x - y) <= bound
    ensures Abs(Score(x) - Clamp(y)) <= bound + 0.005
  {
    ScoreRange(x);
    ClampContracts(x, y);
  }

  /** Two rounding stages move a total by at most half a step per weight plus half a step. */
  lemma RoundingBound(quote: Quote, w: Weights, minCost: real, minDelivery: nat)
    requires w.Valid() && quote.TotalCost() != 0.0
    ensures Abs(TotalScore(quote, w, minCost, minDelivery) - ExactScore(quote, w, minCost, minDelivery))
            <= 0.005 * w.Sum() + 0.005 <= 0.0100005
  {
    var c := RawComponents(quote, minCost, minDelivery);
    WeightedSumError(w, c, 0.005);
    TwoStages(WeightedSum(w, Rounded(c)), WeightedSum(w, Clamped(c)), Weighted(w.Sum(), 0.005));
  }

  /** An exact gap of more than 0.020001 points always decides the order. */
  lemma GapDecides(quotes: seq<Quote>, ctx: Context, a: Quote, b: Quote)
    requires Comparable(quotes, ctx) && ctx.intent.weights.Valid()
    requires a in quotes && b in quotes && Eligible(a, ctx) && Eligible(b, ctx)
    requires ExactIn(a, quotes, ctx) > ExactIn(b, quotes, ctx) + 0.020001
    ensures RanksBefore(Ranked(quotes, ctx), a, b)
  {
    RoundingBound(a, ctx.intent.weights, BestCost(quotes, ctx), BestDelivery(quotes, ctx));
    RoundingBound(b, ctx.intent.weights, BestCost(quotes, ctx), BestDelivery(quotes, ctx));
    HigherKeyRanksBefore(quotes, ctx, a, b);
  }

  /******* What the scores are *******/

  /** An eligible quote that no eligible one undercuts. */
  ghost predicate IsCheapest(quotes: seq<Quote>, ctx: Context, q: Quote) {
    && q in quotes && Eligible(q, ctx)
    && (forall other :: other in quotes && Eligible(other, ctx) ==> q.TotalCost() <= other.TotalCost())
  }

  /** An eligible quote that no eligible one delivers before. */
  ghost predicate IsFastest(quotes: seq<Quote>, ctx: Context, q: Quote) {
    && q in quotes && Eligible(q, ctx)
    && (forall other :: other in quotes && Eligible(other, ctx) ==> q.deliveryDays <= other.deliveryDays)
  }

  lemma LeastOf(quotes: seq<Quote>) returns (cheapest: Quote, fastest: Quote)
    requires quotes != []
    ensures cheapest in quotes && cheapest.TotalCost() == MinCost(quotes)
    ensures fastest in quotes && fastest.deliveryDays == MinDelivery(quotes)
    ensures forall q :: q in quotes ==> cheapest.TotalCost() <= q.TotalCost() && fastest.deliveryDays <= q.deliveryDays
  {
    hide Quote.TotalCost, MinCost, MinDelivery;
    MinimumsAreLeast(quotes);
    cheapest :| cheapest in quotes && cheapest.TotalCost() == MinCost(quotes);
    fastest :| fastest in quotes && fastest.deliveryDays == MinDelivery(quotes);
  }

  lemma BestAre(quotes: seq<Quote>, ctx: Context) returns (cheapest: Quote, fastest: Quote)
    requires Comparable(quotes, ctx)
    ensures IsCheapest(quotes, ctx, cheapest) && cheapest.TotalCost() == BestCost(quotes, ctx)
    ensures IsFastest(quotes, ctx, fastest) && fastest.deliveryDays == BestDelivery(quotes, ctx)
  {
    hide Eligible, EligibleQuotes, AllScorable, Quote.TotalCost, MinCost, MinDelivery;
    EligibleMembers(quotes, ctx);
    cheapest, fastest := LeastOf(EligibleQuotes(quotes, ctx));
    forall other | other in quotes && Eligible(other, ctx)
      ensures cheapest.TotalCost() <= other.TotalCost() && fastest.deliveryDays <= other.deliveryDays
    {
      assert other in EligibleQuotes(quotes, ctx);
    }
  }

  lemma QuotientIs(x: real, y: real)
    requires y != 0.0
    ensures x / y * 100.0 * y == 100.0 * x && (x / y * 100.0 == 100.0 <==> x == y)
  {
    assert x / y * y == x;
  }

  /** A share of `n` in `full` scores 100 exactly from `full` on. */
  lemma ShareIsFull(n: nat, full: nat)
    requires full == 24 || full == 30
    ensures Score(n as real / full as real * 100.0) == 100.0 <==> n >= full
  {
    ScoreRange(n as real / full as real * 100.0);
    ScoreIsHalfUp(n as real / full as real * 100.0, 10000);
  }

  lemma WholeScore(n: nat)
    requires n <= 100
    ensures Score(n as real) == n as real
  {
    ScoreIsHalfUp(n as real, 100 * n);
  }

  /** The items of a comparison: scored exactly if eligible. */
  lemma ItemsAre(quotes: seq<Quote>, ctx: Context, item: EvaluatedQuote)
    requires Compare(quotes, ctx).Ok? && item in Compare(quotes, ctx).value.evaluatedQuotes
    ensures item.quote in quotes && item.eligible == Eligible(item.quote, ctx)
    ensures item.rejectionReasons == Violations(item.quote, ctx)
    ensures !item.eligible ==> item.scores.None? && item.totalScore.None?
    ensures item.eligible ==>
              && Comparable(quotes, ctx)
              && item.quote.TotalCost() != 0.0
              && item == Evaluate(item.quote, ctx, BestCost(quotes, ctx), BestDelivery(quotes, ctx))
  {
    hide Quote.TotalCost, Violations, RawComponents, TotalScore;
    EligibleMembers(quotes, ctx);
    if EligibleQuotes(quotes, ctx) == [] {
      var i :| 0 <= i < |quotes| && Preliminary(quotes, ctx)[i] == item;
      assert quotes[i] in quotes;
    } else {
      CompareIsRanked(quotes, ctx);
      SortPermutes(Evaluated(quotes, ctx), Above);
      assert item in multiset(Evaluated(quotes, ctx));
      var i :| 0 <= i < |quotes| && Evaluated(quotes, ctx)[i] == item;
    }
  }

  /** The weighted sum of rounded scores, written out. */
  function TotalOf(s: Components, w: Weights): real {
    s.price * w.price + s.delivery * w.delivery + s.warranty * w.warranty + s.risk * w.risk
    + s.paymentTerms * w.paymentTerms
  }

  lemma TotalIs(w: Weights, s: Components)
    ensures WeightedSum(w, s) == TotalOf(s, w)
  {
    WeightedSumExpanded(w, s);
  }

  lemma RawAre(q: Quote, c: real, d: nat)
    requires q.TotalCost() != 0.0
    ensures var raw, days := RawComponents(q, c, d), q.deliveryDays;
            && raw.price * q.TotalCost() == 100.0 * c && (raw.price == 100.0 <==> c == q.TotalCost())
            && (days == 0 ==> raw.delivery == 100.0)
            && (days > 0 && d > 0 ==> raw.delivery * days as real == 100.0 * d as real)
            && (days > 0 && d == 0 ==> raw.delivery * days as real == 100.0)
            && raw.warranty == 100.0 * q.warrantyMonths as real / 24.0
            && raw.warranty == q.warrantyMonths as real / (24 as real) * 100.0
            && raw.paymentTerms == 100.0 * q.paymentDelayDays as real / 30.0
            && raw.paymentTerms == q.paymentDelayDays as real / (30 as real) * 100.0
            && raw.risk == 100.0 - 100.0 * q.supplierRisk
  {
    hide Quote.TotalCost;
    QuotientIs(c, q.TotalCost());
    DeliveryIs(q.deliveryDays, d, RawComponents(q, c, d).delivery);
  }

  lemma CheapestIff(quotes: seq<Quote>, ctx: Context, cheapest: Quote, q: Quote)
    requires IsCheapest(quotes, ctx, cheapest) && q in quotes && Eligible(q, ctx)
    ensures IsCheapest(quotes, ctx, q) <==> cheapest.TotalCost() == q.TotalCost()
  {
    hide Eligible, Quote.TotalCost;
  }

  lemma DeliveryIs(days: nat, least: nat, delivery: real)
    requires delivery ==
        if days == 0 then HUNDRED else (if least == 0 then 1 else least) as real / days as real * HUNDRED
    ensures days == 0 ==> delivery == 100.0
    ensures days > 0 && least > 0 ==> delivery * days as real == 100.0 * least as real
    ensures days > 0 && least == 0 ==> delivery * days as real == 100.0
  {
    if days > 0 { QuotientIs((if least == 0 then 1 else least) as real, days as real); }
  }

  /** What the scores of an eligible item are, from the quotes alone. Price: times the quote's cost it is 100
      times the least eligible cost. Delivery: times the quote's days it is 100 times the least eligible days,
      or 100 if that is 0, and it is 100 at no days. Warranty: 100 a two years' share, full exactly from 24
      months on. Payment terms: likewise of 30 days. Risk: one point off for each hundredth. Each is rounded,
      and so is their weighted sum. */
  lemma ScoresAre(quotes: seq<Quote>, ctx: Context, item: EvaluatedQuote, hundredths: nat)
    returns (price: real, delivery: real, cheapest: Quote, fastest: Quote)
    requires Compare(quotes, ctx).Ok? && item in Compare(quotes, ctx).value.evaluatedQuotes && item.eligible
    ensures IsCheapest(quotes, ctx, cheapest) && IsFastest(quotes, ctx, fastest)
    ensures item.scores.Some? && item.totalScore.Some?
    ensures var q, s := item.quote, item.scores.value;
            && s.price == Score(price) && price * q.TotalCost() == 100.0 * cheapest.TotalCost()
            && (price == 100.0 <==> IsCheapest(quotes, ctx, q))
            && s.delivery == Score(delivery) && (q.deliveryDays == 0 ==> delivery == 100.0)
            && (q.deliveryDays > 0 && fastest.deliveryDays > 0 ==>
                  delivery * q.deliveryDays as real == 100.0 * fastest.deliveryDays as real)
            && (q.deliveryDays > 0 && fastest.deliveryDays == 0 ==> delivery * q.deliveryDays as real == 100.0)
            && s.warranty == Score(100.0 * q.warrantyMonths as real / 24.0)
            && (s.warranty == 100.0 <==> q.warrantyMonths >= 24)
            && s.paymentTerms == Score(100.0 * q.paymentDelayDays as real / 30.0)
            && (s.paymentTerms == 100.0 <==> q.paymentDelayDays >= 30)
            && s.risk == Score(100.0 - 100.0 * q.supplierRisk)
            && (hundredths <= 100 && q.supplierRisk == hundredths as real / 100.0 ==>
                  s.risk == 100.0 - hundredths as real)
    ensures item.totalScore.value == Score(TotalOf(item.scores.value, ctx.intent.weights))
  {
    hide Eligible, Quote.TotalCost, Compare, Score, RawComponents, AllScorable, EligibleQuotes, WeightedSum, TotalOf;
    ItemsAre(quotes, ctx, item);
    cheapest, fastest := BestAre(quotes, ctx);
    var q, c, d := item.quote, BestCost(quotes, ctx), BestDelivery(quotes, ctx);
    price, delivery := RawComponents(q, c, d).price, RawComponents(q, c, d).delivery;
    assert item.scores.value == Rounded(RawComponents(q, c, d));
    TotalIs(ctx.intent.weights, item.scores.value);
    RawAre(q, c, d);
    CheapestIff(quotes, ctx, cheapest, q);
    ShareIsFull(q.warrantyMonths, 24);
    ShareIsFull(q.paymentDelayDays, 30);
    if hundredths <= 100 { WholeScore(100 - hundredths); }
  }

  /** What the buyer is told: the supplier, score, cost, currency and delivery of the recommended quote, or
      that nothing was eligible. */
  lemma ExplanationIs(quotes: seq<Quote>, ctx: Context)
    requires Compare(quotes, ctx).Ok?
    ensures var c := Compare(quotes, ctx).value;
            if exists q :: q in quotes && Eligible(q, ctx) then
              && c.evaluatedQuotes != []
              && var best := c.evaluatedQuotes[0];
              && best.eligible && c.recommendedQuoteId == Some(best.quote.quoteId)
              && c.explanation.Recommends? && c.explanation.supplierName == best.quote.supplierName
              && c.explanation.totalScore == best.totalScore && c.explanation.totalCost == best.quote.TotalCost()
              && c.explanation.currency == best.quote.currency
              && c.explanation.deliveryDays == best.quote.deliveryDays
            else
              c.recommendedQuoteId.None? && c.explanation == NothingEligible
  {
    hide Eligible, Ranked, Quote.TotalCost, Preliminary;
    EligibleMembers(quotes, ctx);
    if EligibleQuotes(quotes, ctx) != [] {
      CompareIsRanked(quotes, ctx);
      assert EligibleQuotes(quotes, ctx)[0] in EligibleQuotes(quotes, ctx);
    }
  }

  /******* Dominance *******/

  /** `a` is at least as good as `b` in every criterion. */
  predicate Dominates(a: Quote, b: Quote) {
    && a.TotalCost() <= b.TotalCost()
    && a.deliveryDays <= b.deliveryDays
    && a.warrantyMonths >= b.warrantyMonths
    && a.supplierRisk <= b.supplierRisk
    && a.paymentDelayDays >= b.paymentDelayDays
  }

  lemma SignOfFactor(f: real, x: real)
    requires x > 0.0
    ensures f * x >= 0.0 <==> f >= 0.0
  {
  }

  lemma QuotientAntitone(m: real, x: real, y: real)
    requires m >= 0.0 && 0.0 < x <= y
    ensures m / x * HUNDRED >= m / y * HUNDRED
  {
    var p, q := m / x, m / y;
    assert p * x == m && q * y == m;
    SignOfFactor(q, y);
    assert q * (y - x) >= 0.0;
    assert (p - q) * x == q * (y - x);
    SignOfFactor(p - q, x);
  }

  lemma DeliveryMonotone(m: nat, x: nat, y: nat)
    requires 0 < x <= y
    ensures m as real / x as real * HUNDRED >= m as real / y as real * HUNDRED
  {
    QuotientAntitone(m as real, x as real, y as real);
  }

  ghost predicate ComponentwiseAtLeast(c: Components, d: Components) {
    && c.price >= d.price && c.delivery >= d.delivery && c.warranty >= d.warranty
    && c.risk >= d.risk && c.paymentTerms >= d.paymentTerms
  }

  lemma DominantComponents(a: Quote, b: Quote, minCost: real, minDelivery: nat)
    requires Dominates(a, b) && minCost >= 0.0 && a.TotalCost() > 0.0
    requires minDelivery <= a.deliveryDays
    ensures ComponentwiseAtLeast(Rounded(RawComponents(a, minCost, minDelivery)),
        Rounded(RawComponents(b, minCost, minDelivery)))
  {
    var x, y := RawComponents(a, minCost, minDelivery), RawComponents(b, minCost, minDelivery);
    QuotientAntitone(minCost, a.TotalCost(), b.TotalCost());
    ScoreMonotone(y.price, x.price);
    var m: nat := if minDelivery == 0 then 1 else minDelivery;
    if a.deliveryDays > 0 {
      DeliveryMonotone(m, a.deliveryDays, b.deliveryDays);
    } else if b.deliveryDays > 0 {
      DeliveryMonotone(m, 1, b.deliveryDays);
      assert m == 1;
    }
    ScoreMonotone(y.delivery, x.delivery);
    assert y.warranty <= x.warranty by { assert b.warrantyMonths as real <= a.warrantyMonths as real; }
    ScoreMonotone(y.warranty, x.warranty);
    ScoreMonotone(y.risk, x.risk);
    assert y.paymentTerms <= x.paymentTerms by { assert b.paymentDelayDays as real <= a.paymentDelayDays as real; }
    ScoreMonotone(y.paymentTerms, x.paymentTerms);
  }

  lemma {:induction false} TotalMonotone(ps: seq<real>, qs: seq<real>)
    requires |ps| == |qs| && forall i :: 0 <= i < |ps| ==> ps[i] >= qs[i]
    ensures Total(ps) >= Total(qs)
  {
    if ps != [] {
      TotalMonotone(ps[..|ps| - 1], qs[..|qs| - 1]);
    }
  }

  lemma SumMonotone(w: Weights, c: Components, d: Components)
    requires w.Valid() && ComponentwiseAtLeast(c, d)
    ensures WeightedSum(w, c) >= WeightedSum(w, d)
  {
    var ws, xs, ys := WeightList(w), ScoreList(c), ScoreList(d);
    forall i | 0 <= i < |ws| ensures Products(ws, xs)[i] >= Products(ws, ys)[i] {
      ProductMonotone(ws, xs, ys, i);
    }
    TotalMonotone(Products(ws, xs), Products(ws, ys));
  }

  lemma ProductMonotone(ws: seq<real>, xs: seq<real>, ys: seq<real>, i: nat)
    requires |ws| == |xs| == |ys| && i < |ws| && ws[i] >= 0.0 && xs[i] >= ys[i]
    ensures Products(ws, xs)[i] >= Products(ws, ys)[i]
  {
    MulMonotone(ys[i], xs[i], ws[i]);
  }

  lemma {:induction false} MinimumsAreLeast(quotes: seq<Quote>)
    requires quotes != []
    ensures exists q :: q in quotes && q.TotalCost() == MinCost(quotes)
    ensures exists q :: q in quotes && q.deliveryDays == MinDelivery(quotes)
    ensures forall q :: q in quotes ==> MinCost(quotes) <= q.TotalCost() && MinDelivery(quotes) <= q.deliveryDays
  {
    var init, last := quotes[..|quotes| - 1], quotes[|quotes| - 1];
    assert quotes == init + [last];
    assert last in quotes;
    if init != [] {
      MinimumsAreLeast(init);
      assert forall q :: q in init ==> q in quotes;
    } else {
      assert quotes == [last];
    }
  }

  lemma ValidMinCost(quotes: seq<Quote>, ctx: Context)
    requires Comparable(quotes, ctx) && forall q :: q in quotes ==> q.Valid()
    ensures BestCost(quotes, ctx) >= 0.0
    ensures forall q :: q in quotes && Eligible(q, ctx) ==>
        q.TotalCost() > 0.0 && BestDelivery(quotes, ctx) <= q.deliveryDays
  {
    EligibleMembers(quotes, ctx);
    MinimumsAreLeast(EligibleQuotes(quotes, ctx));
    forall q: Quote | q.Valid() ensures q.TotalCost() >= 0.0 {
      MulMonotone(0.0, q.unitPrice, q.quantity as real);
    }
  }

  /** Dominance: an eligible quote that is at least as good in every criterion scores at least as
      much in every component and in total, and outranks the other one if it is strictly cheaper. */
  lemma DominanceTheorem(quotes: seq<Quote>, ctx: Context, a: Quote, b: Quote)
    requires Comparable(quotes, ctx) && ctx.intent.weights.Valid() && forall q :: q in quotes ==> q.Valid()
    requires a in quotes && b in quotes && Eligible(a, ctx) && Eligible(b, ctx)
    requires Dominates(a, b)
    ensures ComponentwiseAtLeast(
              Rounded(RawComponents(a, BestCost(quotes, ctx), BestDelivery(quotes, ctx))),
              Rounded(RawComponents(b, BestCost(quotes, ctx), BestDelivery(quotes, ctx))))
    ensures TotalIn(a, quotes, ctx) >= TotalIn(b, quotes, ctx)
    ensures a.TotalCost() < b.TotalCost() ==> RanksBefore(Ranked(quotes, ctx), a, b)
  {
    ValidMinCost(quotes, ctx);
    var c, d := BestCost(quotes, ctx), BestDelivery(quotes, ctx);
    var x, y := Rounded(RawComponents(a, c, d)), Rounded(RawComponents(b, c, d));
    DominantComponents(a, b, c, d);
    SumMonotone(ctx.intent.weights, x, y);
    ScoreMonotone(WeightedSum(ctx.intent.weights, y), WeightedSum(ctx.intent.weights, x));
    if a.TotalCost() < b.TotalCost() {
      HigherKeyRanksBefore(quotes, ctx, a, b);
    }
  }

  lemma RecommendationTotals(quotes: seq<Quote>, ctx: Context, k: nat) returns (i: nat)
    requires Comparable(quotes, ctx) && k < |quotes| && Eligible(quotes[k], ctx)
    ensures i < |quotes| && Eligible(quotes[i], ctx) && quotes[i].TotalCost() != 0.0 && quotes[k].TotalCost() != 0.0
    ensures Compare(quotes, ctx).Ok? && Compare(quotes, ctx).value.evaluatedQuotes != []
    ensures Compare(quotes, ctx).value.evaluatedQuotes[0].quote == quotes[i]
    ensures TotalIn(quotes[k], quotes, ctx) >= TotalIn(quotes[i], quotes, ctx) ==>
              quotes[i].TotalCost() <= quotes[k].TotalCost()
  {
    i := RecommendationIsBest(quotes, ctx);
    EvaluatedEligible(quotes, ctx, i);
    EvaluatedEligible(quotes, ctx, k);
  }

  /** No strictly cheaper dominating quote is passed over. */
  lemma RecommendationUndominated(quotes: seq<Quote>, ctx: Context, a: Quote)
    requires Comparable(quotes, ctx) && ctx.intent.weights.Valid() && forall q :: q in quotes ==> q.Valid()
    requires a in quotes && Eligible(a, ctx)
    ensures Compare(quotes, ctx).Ok? && Compare(quotes, ctx).value.evaluatedQuotes != []
    ensures var best := Compare(quotes, ctx).value.evaluatedQuotes[0].quote;
            !(Dominates(a, best) && a.TotalCost() < best.TotalCost())
  {
    var k: nat :| k < |quotes| && quotes[k] == a;
    var i := RecommendationTotals(quotes, ctx, k);
    if Dominates(a, quotes[i]) {
      DominanceTheorem(quotes, ctx, a, quotes[i]);
    }
  }

  /******* Independence *******/

  lemma EvaluatedLast(quotes: seq<Quote>, ctx: Context, c: real, d: nat)
    requires AllScorable(quotes, ctx) && quotes != []
    ensures AllScorable(quotes[..|quotes| - 1], ctx)
    ensures EvaluateAll(quotes, ctx, c, d)
         == EvaluateAll(quotes[..|quotes| - 1], ctx, c, d) + [Evaluate(quotes[|quotes| - 1], ctx, c, d)]
  {
  }

  lemma {:induction false} EligibleScorable(quotes: seq<Quote>, ctx: Context)
    requires AllScorable(quotes, ctx)
    ensures AllScorable(EligibleQuotes(quotes, ctx), ctx)
  {
    if quotes != [] {
      EligibleScorable(quotes[..|quotes| - 1], ctx);
    }
  }

  lemma {:induction false} EligibleOfEvaluated(quotes: seq<Quote>, ctx: Context, c: real, d: nat)
    requires AllScorable(quotes, ctx)
    ensures AllScorable(EligibleQuotes(quotes, ctx), ctx)
    ensures Filter(EvaluateAll(quotes, ctx, c, d), IsEligible) == EvaluateAll(EligibleQuotes(quotes, ctx), ctx, c, d)
  {
    EligibleScorable(quotes, ctx);
    if quotes != [] {
      var init, last := quotes[..|quotes| - 1], quotes[|quotes| - 1];
      EvaluatedLast(quotes, ctx, c, d);
      EligibleOfEvaluated(init, ctx, c, d);
      var item := Evaluate(last, ctx, c, d);
      FilterConcat(EvaluateAll(init, ctx, c, d), [item], IsEligible);
      FilterSingle(item, IsEligible);
      if Eligible(last, ctx) {
        var e := EligibleQuotes(quotes, ctx);
        assert e[..|e| - 1] == EligibleQuotes(init, ctx);
        EvaluatedLast(e, ctx, c, d);
      }
    }
  }

  /** The eligible part of the result depends on the eligible part of the input alone. */
  lemma EligibleOfRanked(quotes: seq<Quote>, ctx: Context)
    requires Comparable(quotes, ctx)
    ensures Comparable(EligibleQuotes(quotes, ctx), ctx)
    ensures Filter(Ranked(quotes, ctx), IsEligible)
         == Sort(EvaluateAll(EligibleQuotes(quotes, ctx), ctx, BestCost(quotes, ctx), BestDelivery(quotes, ctx)), Above)
  {
    AboveIsOrder();
    SortFilter(Evaluated(quotes, ctx), IsEligible, Above);
    EligibleOfEvaluated(quotes, ctx, BestCost(quotes, ctx), BestDelivery(quotes, ctx));
    EligibleIdempotent(quotes, ctx);
  }

  lemma {:induction false} EligibleIdempotent(quotes: seq<Quote>, ctx: Context)
    ensures EligibleQuotes(EligibleQuotes(quotes, ctx), ctx) == EligibleQuotes(quotes, ctx)
  {
    if quotes != [] {
      var init, last := quotes[..|quotes| - 1], quotes[|quotes| - 1];
      EligibleIdempotent(init, ctx);
      var e := EligibleQuotes(quotes, ctx);
      if Eligible(last, ctx) {
        assert e[..|e| - 1] == EligibleQuotes(init, ctx) && e[|e| - 1] == last;
      } else {
        assert e == EligibleQuotes(init, ctx);
      }
    }
  }

  /** Ineligible quotes are inert: whatever is deleted or added among them, the eligible quotes keep
      their scores and their order, and the recommendation stays. */
  lemma IneligibleAreInert(quotes: seq<Quote>, others: seq<Quote>, ctx: Context)
    requires Comparable(quotes, ctx) && Comparable(others, ctx)
    requires EligibleQuotes(quotes, ctx) == EligibleQuotes(others, ctx)
    ensures Filter(Ranked(quotes, ctx), IsEligible) == Filter(Ranked(others, ctx), IsEligible)
    ensures Compare(quotes, ctx).Ok? && Compare(others, ctx).Ok?
    ensures Compare(quotes, ctx).value.recommendedQuoteId == Compare(others, ctx).value.recommendedQuoteId
    ensures Compare(quotes, ctx).value.explanation == Compare(others, ctx).value.explanation
  {
    EligibleOfRanked(quotes, ctx);
    EligibleOfRanked(others, ctx);
    CompareIsRanked(quotes, ctx);
    CompareIsRanked(others, ctx);
    assert Filter(Ranked(quotes, ctx), IsEligible)[0] == Ranked(quotes, ctx)[0];
    assert Filter(Ranked(others, ctx), IsEligible)[0] == Ranked(others, ctx)[0];
  }

  function Keep(quotes: seq<Quote>, kept: seq<bool>): seq<Quote>
    requires |kept| == |quotes|
  {
    if quotes == [] then []
    else
      var n := |quotes| - 1;
      Keep(quotes[..n], kept[..n]) + if kept[n] then [quotes[n]] else []
  }

  /** Deleting any set of ineligible quotes is such a change. */
  lemma {:induction false} DeletingIneligible(quotes: seq<Quote>, kept: seq<bool>, ctx: Context)
    requires |kept| == |quotes|
    requires forall i :: 0 <= i < |quotes| && !kept[i] ==> !Eligible(quotes[i], ctx)
    ensures EligibleQuotes(Keep(quotes, kept), ctx) == EligibleQuotes(quotes, ctx)
    ensures forall q :: q in Keep(quotes, kept) ==> q in quotes
  {
    if quotes != [] {
      var n := |quotes| - 1;
      DeletingIneligible(quotes[..n], kept[..n], ctx);
      var k := Keep(quotes, kept);
      if kept[n] {
        assert k[..|k| - 1] == Keep(quotes[..n], kept[..n]) && k[|k| - 1] == quotes[n];
      } else {
        assert !Eligible(quotes[n], ctx);
        assert k == Keep(quotes[..n], kept[..n]);
      }
      assert quotes == quotes[..n] + [quotes[n]];
    }
  }

  lemma EvaluateAllConcat(s: seq<Quote>, t: seq<Quote>, ctx: Context, c: real, d: nat)
    requires AllScorable(s, ctx) && AllScorable(t, ctx)
    ensures AllScorable(s + t, ctx)
    ensures EvaluateAll(s + t, ctx, c, d) == EvaluateAll(s, ctx, c, d) + EvaluateAll(t, ctx, c, d)
  {
  }

  lemma {:induction false} EvaluateAllPermutes(s: seq<Quote>, t: seq<Quote>, ctx: Context, c: real, d: nat)
    requires multiset(s) == multiset(t)
    requires AllScorable(s, ctx) && AllScorable(t, ctx)
    ensures multiset(EvaluateAll(s, ctx, c, d)) == multiset(EvaluateAll(t, ctx, c, d))
  {
    if s == [] {
      assert |multiset(t)| == 0;
    } else {
      var before, after := TakeOut(s, t);
      var head := [s[0]];
      assert s == head + s[1..];
      var n := |before|;
      assert t[..n] == before && t[n + 1..] == after;
      EvaluateAllConcat(before, after, ctx, c, d);
      EvaluateAllConcat(head, after, ctx, c, d);
      EvaluateAllConcat(before, head + after, ctx, c, d);
      EvaluateAllConcat(head, s[1..], ctx, c, d);
      EvaluateAllPermutes(s[1..], before + after, ctx, c, d);
    }
  }

  lemma SameMinimums(s: seq<Quote>, t: seq<Quote>)
    requires s != [] && t != []
    requires forall q :: q in s <==> q in t
    ensures MinCost(s) == MinCost(t) && MinDelivery(s) == MinDelivery(t)
  {
    MinimumsAreLeast(s);
    MinimumsAreLeast(t);
  }

  lemma SameMembers(s: seq<Quote>, t: seq<Quote>)
    requires multiset(s) == multiset(t)
    ensures forall q :: q in s <==> q in t
  {
    forall q ensures q in s <==> q in t {
      assert q in s <==> q in multiset(s);
      assert q in t <==> q in multiset(t);
    }
  }

  lemma PermutedComparable(quotes: seq<Quote>, others: seq<Quote>, ctx: Context)
    requires Comparable(quotes, ctx) && forall q :: q in quotes <==> q in others
    ensures Comparable(others, ctx)
    ensures forall q :: q in EligibleQuotes(quotes, ctx) <==> q in EligibleQuotes(others, ctx)
  {
    EligibleMembers(quotes, ctx);
    EligibleMembers(others, ctx);
    assert EligibleQuotes(quotes, ctx)[0] in EligibleQuotes(others, ctx);
    forall i | 0 <= i < |others| ensures Scorable(others[i], ctx) {
      assert others[i] in quotes;
    }
  }

  lemma PermutedBest(quotes: seq<Quote>, others: seq<Quote>, ctx: Context)
    requires Comparable(quotes, ctx) && multiset(quotes) == multiset(others)
    ensures Comparable(others, ctx)
    ensures BestCost(quotes, ctx) == BestCost(others, ctx) && BestDelivery(quotes, ctx) == BestDelivery(others, ctx)
  {
    SameMembers(quotes, others);
    PermutedComparable(quotes, others, ctx);
    SameMinimums(EligibleQuotes(quotes, ctx), EligibleQuotes(others, ctx));
  }

  /** Permuting the input changes the order only among full ties: position by position the same
      eligibility, score and cost. */
  lemma PermutedInput(quotes: seq<Quote>, others: seq<Quote>, ctx: Context)
    requires Comparable(quotes, ctx) && multiset(quotes) == multiset(others)
    ensures Comparable(others, ctx)
    ensures multiset(Ranked(quotes, ctx)) == multiset(Ranked(others, ctx))
    ensures |Ranked(quotes, ctx)| == |Ranked(others, ctx)|
    ensures forall i :: 0 <= i < |Ranked(quotes, ctx)| ==> Tied(Above, Ranked(quotes, ctx)[i], Ranked(others, ctx)[i])
  {
    PermutedBest(quotes, others, ctx);
    EvaluateAllPermutes(quotes, others, ctx, BestCost(quotes, ctx), BestDelivery(quotes, ctx));
    AboveIsOrder();
    SortOfPermutation(Evaluated(quotes, ctx), Evaluated(others, ctx), Above);
    SortPermutes(Evaluated(quotes, ctx), Above);
    SortPermutes(Evaluated(others, ctx), Above);
  }
}
