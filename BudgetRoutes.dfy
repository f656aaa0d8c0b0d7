/**
 * The budget endpoints of app/api/routes/budget.py: the summary guard and
 * the advice rules that turn the spending analysis into insights and
 * recommendations. The transactions are the ones the handler fetched for
 * the caller.
 */
module BudgetRoutes {
  import opened Sums
  import opened Domain
  import opened FinanceService

  // ---------------------------------------------------------------------
  // Summary
  // ---------------------------------------------------------------------

  datatype SummaryReply = NoSummaryData | Summary(summary: BudgetSummary)

  /** `get_budget_summary`: a message when there are no transactions, otherwise the budget summary. */
  method GetBudgetSummary(ts: seq<Transaction>) returns (r: SummaryReply)
    ensures r.NoSummaryData? <==> ts == []
    ensures r.Summary? ==> r.summary == SummaryOf(ts)
  {
    if ts == [] {
      return NoSummaryData;
    }
    var s := CalculateBudgetSummary(ts);
    r := Summary(s);
  }

  // ---------------------------------------------------------------------
  // Advice
  // ---------------------------------------------------------------------

  /**
   * An insight. The three 50/30/20 insights carry the share they report
   * and whether it misses its target; a category insight carries the
   * advice the analysis gave that category.
   */
  datatype Insight =
    | NeedsInsight(percent: real, aboveTarget: bool)
    | WantsInsight(percent: real, aboveTarget: bool)
    | SavingsInsight(percent: real, belowTarget: bool)
    | CategoryInsight(category: Category, advice: Advice)

  /** A recommendation: the three 50/30/20 ones and the category-specific tips. */
  datatype Recommendation = ReviewFixedCosts | CutNonEssentials | RaiseSavingsRate | CategoryTip(category: Category)

  function RecommendationText(r: Recommendation): string
  {
    match r
    case ReviewFixedCosts => "Consider reviewing your housing and utilities costs for potential savings."
    case CutNonEssentials => "Consider cutting back on non-essential purchases in categories like entertainment and shopping."
    case RaiseSavingsRate => "Try to increase your savings rate by reducing expenses or increasing income."
    case CategoryTip(c) =>
      if c == Housing then "Housing is your largest expense. Consider if refinancing, roommates, or downsizing could help."
      else if c == Food then "Try meal planning and cooking at home more often to reduce food expenses."
      else if c == Transport then "Consider using public transportation, carpooling, or combining trips to save on transportation costs."
      else if c == Shopping then "Try implementing a 24-hour rule before making non-essential purchases to reduce impulse buying."
      else "Set up automatic transfers to your savings or investment accounts to build your financial security."
  }

  /** What `get_budget_advice` answers. */
  datatype AdviceReply =
    | NotEnoughAdviceData
      /** The category loop reads "status" from the error message string: the request fails. */
    | AdviceFailed
    | AdviceReport(summary: BudgetSummary, insights: seq<Insight>, recommendations: seq<Recommendation>,
                   fixed: ExpenseGroup, discretionary: ExpenseGroup, benchmarks: BudgetBenchmarks,
                   categoryAnalysis: map<Category, CategoryAnalysis>)

  /** The 50/30/20 insights for a positive income: needs, wants, then savings. */
  function RuleInsights(s: BudgetSummary, fixed: ExpenseGroup, discretionary: ExpenseGroup): seq<Insight>
  {
    if s.totalIncome > 0.0 then
      [NeedsInsight(fixed.percentageOfIncome, fixed.percentageOfIncome > 50.0),
       WantsInsight(discretionary.percentageOfIncome, discretionary.percentageOfIncome > 30.0),
       SavingsInsight(s.savingsRate, s.savingsRate < 20.0)]
    else []
  }

  /** The 50/30/20 recommendations: one for each share that misses its target. */
  function RuleRecommendations(s: BudgetSummary, fixed: ExpenseGroup, discretionary: ExpenseGroup): seq<Recommendation>
  {
    if s.totalIncome > 0.0 then
      (if fixed.percentageOfIncome > 50.0 then [ReviewFixedCosts] else [])
      + (if discretionary.percentageOfIncome > 30.0 then [CutNonEssentials] else [])
      + (if s.savingsRate < 20.0 then [RaiseSavingsRate] else [])
    else []
  }

  /** The tip for a category with status `st`, if any. */
  function TipFor(c: Category, st: Status): Option<Recommendation>
  {
    if (c == Housing || c == Food || c == Transport || c == Shopping) && st == Above then Some(CategoryTip(c))
    else if (c == Savings || c == Investment) && st == Below then Some(CategoryTip(c))
    else None
  }

  /** The category insights of the loop over the categories `cs`, in order. */
  function CategoryInsights(cats: map<Category, CategoryAnalysis>, cs: seq<Category>): seq<Insight>
  {
    if cs == [] then []
    else
      var c := cs[|cs| - 1];
      CategoryInsights(cats, cs[..|cs| - 1])
      + (if c in cats && cats[c].status != Normal then [CategoryInsight(c, cats[c].advice)] else [])
  }

  /** The category tips of the loop over the categories `cs`, in order. */
  function CategoryTips(cats: map<Category, CategoryAnalysis>, cs: seq<Category>): seq<Recommendation>
  {
    if cs == [] then []
    else
      var c := cs[|cs| - 1];
      CategoryTips(cats, cs[..|cs| - 1])
      + (if c in cats && cats[c].status != Normal && TipFor(c, cats[c].status).Some? then [TipFor(c, cats[c].status).value] else [])
  }

  /** The answer built from the pieces of a spending analysis of at least one transaction. */
  function AdviceFrom(s: BudgetSummary, fixed: ExpenseGroup, discretionary: ExpenseGroup, benchmarks: BudgetBenchmarks,
                      analysis: Analysis): AdviceReply
  {
    match analysis
    case IncomeRequired => AdviceFailed
    case Analysed(cats) =>
      AdviceReport(s, RuleInsights(s, fixed, discretionary) + CategoryInsights(cats, AllCategories),
                   RuleRecommendations(s, fixed, discretionary) + CategoryTips(cats, AllCategories),
                   fixed, discretionary, benchmarks, cats)
  }

  /**
   * What `get_budget_advice` answers for the caller's transactions `ts`:
   * the message without transactions, a failure without income, the
   * report otherwise.
   */
  function AdviceOf(ts: seq<Transaction>): (r: AdviceReply)
    ensures r.NotEnoughAdviceData? <==> ts == []
    ensures r.AdviceFailed? <==> ts != [] && SummaryOf(ts).totalIncome <= 0.0
    ensures r.AdviceReport? ==> r.summary == SummaryOf(ts) && r.summary.totalIncome > 0.0
  {
    if ts == [] then NotEnoughAdviceData
    else
      var s := SummaryOf(ts);
      AdviceFrom(s, GroupOf(s, FixedCategories), GroupOf(s, DiscretionaryCategories),
                 CalculateBudgetBenchmarks(s.totalIncome), AnalysisOf(s))
  }

  /**
   * `get_budget_advice`: the analysis, then the advice built from it. The
   * advice-point list the handler also assembles is not part of its answer.
   */
  method GetBudgetAdvice(ts: seq<Transaction>) returns (r: AdviceReply)
    ensures r == AdviceOf(ts)
  {
    if ts == [] {
      return NotEnoughAdviceData;
    }
    var patterns := AnalyzeSpendingPatterns(ts);
    r := AdviseOn(patterns.summary, patterns.fixedExpenses, patterns.discretionaryExpenses,
                  patterns.benchmarks, patterns.categoryAnalysis);
  }

  /** The 50/30/20 checks, then one pass over the analysed categories in dictionary order. */
  method AdviseOn(summary: BudgetSummary, fixed: ExpenseGroup, discretionary: ExpenseGroup,
                  benchmarks: BudgetBenchmarks, analysis: Analysis)
    returns (r: AdviceReply)
    ensures r == AdviceFrom(summary, fixed, discretionary, benchmarks, analysis)
  {
    var insights: seq<Insight> := [];
    var recommendations: seq<Recommendation> := [];
    if summary.totalIncome > 0.0 {
      var needs := fixed.percentageOfIncome;
      if needs > 50.0 {
        insights := insights + [NeedsInsight(needs, true)];
        recommendations := recommendations + [ReviewFixedCosts];
      } else {
        insights := insights + [NeedsInsight(needs, false)];
      }
      var wants := discretionary.percentageOfIncome;
      if wants > 30.0 {
        insights := insights + [WantsInsight(wants, true)];
        recommendations := recommendations + [CutNonEssentials];
      } else {
        insights := insights + [WantsInsight(wants, false)];
      }
      var savings := summary.savingsRate;
      if savings < 20.0 {
        insights := insights + [SavingsInsight(savings, true)];
        recommendations := recommendations + [RaiseSavingsRate];
      } else {
        insights := insights + [SavingsInsight(savings, false)];
      }
    }
    assert insights == RuleInsights(summary, fixed, discretionary);
    assert recommendations == RuleRecommendations(summary, fixed, discretionary);
    if analysis.IncomeRequired? {
      return AdviceFailed;
    }
    var cats := analysis.categories;
    insights, recommendations := CategoryAdvice(cats, AllCategories, insights, recommendations);
    r := AdviceReport(summary, insights, recommendations, fixed, discretionary, benchmarks, cats);
  }

  /** The loop over the analysed categories, appending to the two lists. */
  method CategoryAdvice(cats: map<Category, CategoryAnalysis>, order: seq<Category>,
                        insights0: seq<Insight>, recommendations0: seq<Recommendation>)
    returns (insights: seq<Insight>, recommendations: seq<Recommendation>)
    ensures insights == insights0 + CategoryInsights(cats, order)
    ensures recommendations == recommendations0 + CategoryTips(cats, order)
  {
    insights, recommendations := insights0, recommendations0;
    for i := 0 to |order|
      invariant insights == insights0 + CategoryInsights(cats, order[..i])
      invariant recommendations == recommendations0 + CategoryTips(cats, order[..i])
    {
      assert order[..i + 1][..i] == order[..i];
      var c := order[i];
      if c in cats && cats[c].status != Normal {
        insights := insights + [CategoryInsight(c, cats[c].advice)];
        recommendations := AddTip(c, cats[c].status, recommendations);
      }
    }
    assert order[..|order|] == order;
  }

  /** Lines 87-96: the tip, if any, for a category outside its benchmark. */
  method AddTip(c: Category, st: Status, recommendations0: seq<Recommendation>) returns (recommendations: seq<Recommendation>)
    ensures recommendations == recommendations0 + (if TipFor(c, st).Some? then [TipFor(c, st).value] else [])
  {
    recommendations := recommendations0;
    if c == Housing && st == Above {
      recommendations := recommendations + [CategoryTip(Housing)];
    } else if c == Food && st == Above {
      recommendations := recommendations + [CategoryTip(Food)];
    } else if c == Transport && st == Above {
      recommendations := recommendations + [CategoryTip(Transport)];
    } else if c == Shopping && st == Above {
      recommendations := recommendations + [CategoryTip(Shopping)];
    } else if (c == Savings || c == Investment) && st == Below {
      recommendations := recommendations + [CategoryTip(c)];
    }
  }


  // ---------------------------------------------------------------------
  // Properties of the advice
  // ---------------------------------------------------------------------

  /**
   * The category insights are exactly one per analysed category whose
   * status is not `normal`, carrying that category's advice.
   */
  lemma {:induction false} CategoryInsightsExact(cats: map<Category, CategoryAnalysis>, cs: seq<Category>)
    requires Distinct(cs)
    ensures forall i :: 0 <= i < |CategoryInsights(cats, cs)| ==>
              var n := CategoryInsights(cats, cs)[i];
              n.CategoryInsight? && n.category in cs && n.category in cats
              && cats[n.category].status != Normal && n.advice == cats[n.category].advice
    ensures forall c :: c in cs && c in cats && cats[c].status != Normal ==>
              exists i :: 0 <= i < |CategoryInsights(cats, cs)| && CategoryInsights(cats, cs)[i].category == c
    ensures forall i, j :: 0 <= i < j < |CategoryInsights(cats, cs)| ==>
              CategoryInsights(cats, cs)[i].category != CategoryInsights(cats, cs)[j].category
  {
    if cs != [] {
      var init, c := cs[..|cs| - 1], cs[|cs| - 1];
      assert cs == init + [c];
      assert Distinct(init);
      CategoryInsightsExact(cats, init);
      var before := CategoryInsights(cats, init);
      var all := CategoryInsights(cats, cs);
      assert forall i :: 0 <= i < |before| ==> all[i] == before[i];
      forall d | d in cs && d in cats && cats[d].status != Normal
        ensures exists i :: 0 <= i < |all| && all[i].category == d
      {
        if d == c {
          assert all[|before|].category == d;
        } else {
          assert d in init;
          var i :| 0 <= i < |before| && before[i].category == d;
          assert all[i].category == d;
        }
      }
    }
  }

  /**
   * The category tips are exactly one per analysed category that calls
   * for one (housing, food, transport or shopping `above`; savings or
   * investment `below`), and never two for the same category.
   */
  lemma {:induction false} CategoryTipsExact(cats: map<Category, CategoryAnalysis>, cs: seq<Category>)
    requires Distinct(cs)
    ensures forall i :: 0 <= i < |CategoryTips(cats, cs)| ==>
              var r := CategoryTips(cats, cs)[i];
              r.CategoryTip? && r.category in cs && r.category in cats && TipFor(r.category, cats[r.category].status) == Some(r)
    ensures forall c :: c in cs && c in cats && TipFor(c, cats[c].status).Some? ==> CategoryTip(c) in CategoryTips(cats, cs)
    ensures forall i, j :: 0 <= i < j < |CategoryTips(cats, cs)| ==> CategoryTips(cats, cs)[i] != CategoryTips(cats, cs)[j]
  {
    if cs != [] {
      var init, c := cs[..|cs| - 1], cs[|cs| - 1];
      assert cs == init + [c];
      assert Distinct(init);
      CategoryTipsExact(cats, init);
    }
  }

  /** A tip is given only for a category whose status is not `normal`, and names that category. */
  lemma TipNeedsStatus(c: Category, st: Status)
    ensures TipFor(c, st).Some? ==> st != Normal && TipFor(c, st) == Some(CategoryTip(c))
    ensures TipFor(c, st).Some? <==>
              ((c == Housing || c == Food || c == Transport || c == Shopping) && st == Above)
              || ((c == Savings || c == Investment) && st == Below)
  {
  }

  /** The category loop adds only category insights and category tips. */
  lemma {:induction false} CategoryLoopKinds(cats: map<Category, CategoryAnalysis>, cs: seq<Category>)
    ensures forall i :: 0 <= i < |CategoryInsights(cats, cs)| ==> CategoryInsights(cats, cs)[i].CategoryInsight?
    ensures forall i :: 0 <= i < |CategoryTips(cats, cs)| ==> CategoryTips(cats, cs)[i].CategoryTip?
  {
    if cs != [] {
      CategoryLoopKinds(cats, cs[..|cs| - 1]);
    }
  }

  /**
   * With a positive income the report opens with exactly one needs, one
   * wants and one savings insight, each missing its target only strictly
   * beyond 50, 30 and 20; every later insight is a category insight.
   */
  lemma RuleInsightsFirst(s: BudgetSummary, fixed: ExpenseGroup, discretionary: ExpenseGroup, benchmarks: BudgetBenchmarks,
                          cats: map<Category, CategoryAnalysis>)
    requires s.totalIncome > 0.0
    ensures var r := AdviceFrom(s, fixed, discretionary, benchmarks, Analysed(cats));
            |r.insights| >= 3
            && r.insights[0] == NeedsInsight(fixed.percentageOfIncome, fixed.percentageOfIncome > 50.0)
            && r.insights[1] == WantsInsight(discretionary.percentageOfIncome, discretionary.percentageOfIncome > 30.0)
            && r.insights[2] == SavingsInsight(s.savingsRate, s.savingsRate < 20.0)
            && (forall i :: 3 <= i < |r.insights| ==> r.insights[i].CategoryInsight?)
  {
    var r := AdviceFrom(s, fixed, discretionary, benchmarks, Analysed(cats));
    assert r.insights == RuleInsights(s, fixed, discretionary) + CategoryInsights(cats, AllCategories);
    CategoryKindsAfter(RuleInsights(s, fixed, discretionary), cats, AllCategories);
  }

  /** Whatever comes before them, the loop's insights are all category insights. */
  lemma CategoryKindsAfter(pre: seq<Insight>, cats: map<Category, CategoryAnalysis>, order: seq<Category>)
    ensures forall i :: |pre| <= i < |pre + CategoryInsights(cats, order)| ==> (pre + CategoryInsights(cats, order))[i].CategoryInsight?
  {
    var ins := CategoryInsights(cats, order);
    CategoryLoopKinds(cats, order);
    assert forall i :: |pre| <= i < |pre + ins| ==> (pre + ins)[i] == ins[i - |pre|];
  }

  /** Each missed 50/30/20 target, and only a missed one, adds its recommendation. */
  lemma RuleRecommendationsExact(s: BudgetSummary, fixed: ExpenseGroup, discretionary: ExpenseGroup,
                                 benchmarks: BudgetBenchmarks, cats: map<Category, CategoryAnalysis>)
    requires s.totalIncome > 0.0
    ensures var r := AdviceFrom(s, fixed, discretionary, benchmarks, Analysed(cats));
            (ReviewFixedCosts in r.recommendations <==> fixed.percentageOfIncome > 50.0)
            && (CutNonEssentials in r.recommendations <==> discretionary.percentageOfIncome > 30.0)
            && (RaiseSavingsRate in r.recommendations <==> s.savingsRate < 20.0)
  {
    var tips := CategoryTips(cats, AllCategories);
    CategoryLoopKinds(cats, AllCategories);
    var r := AdviceFrom(s, fixed, discretionary, benchmarks, Analysed(cats));
    var rules := RuleRecommendations(s, fixed, discretionary);
    assert r.recommendations == rules + tips;
    assert ReviewFixedCosts !in tips && CutNonEssentials !in tips && RaiseSavingsRate !in tips;
  }

  /**
   * After the three 50/30/20 insights come the category insights: one for
   * each analysed category whose status is not `normal`, with its advice.
   */
  lemma CategoryInsightsOfReport(s: BudgetSummary, fixed: ExpenseGroup, discretionary: ExpenseGroup,
                                 benchmarks: BudgetBenchmarks, cats: map<Category, CategoryAnalysis>, c: Category)
    requires s.totalIncome > 0.0
    ensures var r := AdviceFrom(s, fixed, discretionary, benchmarks, Analysed(cats));
            (exists i :: 3 <= i < |r.insights| && r.insights[i].CategoryInsight? && r.insights[i].category == c)
            <==> c in cats && cats[c].status != Normal
    ensures var r := AdviceFrom(s, fixed, discretionary, benchmarks, Analysed(cats));
            forall i :: 3 <= i < |r.insights| && r.insights[i].CategoryInsight? && r.insights[i].category == c ==>
              c in cats && r.insights[i].advice == cats[c].advice
  {
    assert Distinct(AllCategories) && c in AllCategories by {
      AllCategoriesListsEachOnce();
    }
    var r := AdviceFrom(s, fixed, discretionary, benchmarks, Analysed(cats));
    assert r.insights == RuleInsights(s, fixed, discretionary) + CategoryInsights(cats, AllCategories);
    assert |RuleInsights(s, fixed, discretionary)| == 3;
    CategoryInsightsAfter(RuleInsights(s, fixed, discretionary), cats, AllCategories, c);
  }

  /** The category insights that follow `pre`: one for `c` exactly when its status is not normal, with its advice. */
  lemma CategoryInsightsAfter(pre: seq<Insight>, cats: map<Category, CategoryAnalysis>, order: seq<Category>, c: Category)
    requires Distinct(order) && c in order
    ensures var r := pre + CategoryInsights(cats, order);
            (exists i :: |pre| <= i < |r| && r[i].CategoryInsight? && r[i].category == c)
            <==> c in cats && cats[c].status != Normal
    ensures var r := pre + CategoryInsights(cats, order);
            forall i :: |pre| <= i < |r| && r[i].CategoryInsight? && r[i].category == c ==>
              c in cats && r[i].advice == cats[c].advice
  {
    var ins := CategoryInsights(cats, order);
    var r := pre + ins;
    CategoryInsightsExact(cats, order);
    if c in cats && cats[c].status != Normal {
      var k :| 0 <= k < |ins| && ins[k].category == c;
      assert r[|pre| + k] == ins[k];
    }
    forall i | |pre| <= i < |r| && r[i].CategoryInsight? && r[i].category == c
      ensures c in cats && cats[c].status != Normal && r[i].advice == cats[c].advice
    {
      assert r[i] == ins[i - |pre|];
    }
  }


  /** A category tip is recommended exactly for the analysed categories that call for one. */
  lemma CategoryTipsOfReport(s: BudgetSummary, fixed: ExpenseGroup, discretionary: ExpenseGroup,
                             benchmarks: BudgetBenchmarks, cats: map<Category, CategoryAnalysis>, c: Category)
    requires s.totalIncome > 0.0
    ensures var r := AdviceFrom(s, fixed, discretionary, benchmarks, Analysed(cats));
            CategoryTip(c) in r.recommendations <==> c in cats && TipFor(c, cats[c].status).Some?
  {
    var r := AdviceFrom(s, fixed, discretionary, benchmarks, Analysed(cats));
    var rules := RuleRecommendations(s, fixed, discretionary);
    var tips := CategoryTips(cats, AllCategories);
    assert r.recommendations == rules + tips;
    assert CategoryTip(c) !in rules;
    assert Distinct(AllCategories) && c in AllCategories by {
      AllCategoriesListsEachOnce();
    }
    CategoryTipsExact(cats, AllCategories);
    if CategoryTip(c) in tips {
      var i :| 0 <= i < |tips| && tips[i] == CategoryTip(c);
    }
  }
}
