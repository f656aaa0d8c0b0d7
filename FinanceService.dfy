/**
 * Budget aggregation and benchmarking (app/services/finance_service.py):
 * the income/expense summary with its per-category breakdown, the split of
 * that breakdown into fixed and discretionary spending, the 50/30/20
 * targets, and the per-category comparison against a percent-of-income
 * table.
 *
 * Every per-category dictionary here iterates in the order of
 * `AllCategories` (the order pandas' `groupby` yields), so a dictionary is
 * modelled as a `map` and its iteration as a walk over `AllCategories`.
 */
module FinanceService {
  import opened Sums
  import opened Domain
  import Text

  /** One entry of `category_breakdown`. */
  datatype CategoryDetail = CategoryDetail(amount: real, percentage: real)

  datatype BudgetSummary = BudgetSummary(
    totalIncome: real,
    totalExpenses: real,
    netSavings: real,
    savingsRate: real,
    breakdown: map<Category, CategoryDetail>)

  function NegatedAmountOf(t: Transaction): real { -t.amount }

  /** A category's entry: the magnitude of its signed sum, and its share of `totalExpenses`. */
  function DetailOf(exps: seq<Transaction>, c: Category, totalExpenses: real): CategoryDetail
  {
    var amount := Abs(GroupTotal(exps, AmountOf, CategoryOf, c));
    CategoryDetail(amount, PercentOf(amount, totalExpenses))
  }

  function BreakdownOf(exps: seq<Transaction>, totalExpenses: real): map<Category, CategoryDetail>
  {
    map c | c in KeySet(exps, CategoryOf) :: DetailOf(exps, c, totalExpenses)
  }

  /** What `calculate_budget_summary` returns for `ts`. */
  function SummaryOf(ts: seq<Transaction>): (s: BudgetSummary)
    ensures s.netSavings == s.totalIncome - s.totalExpenses
    ensures s.totalExpenses >= 0.0
    ensures s.totalIncome <= 0.0 ==> s.savingsRate == 0.0
    ensures forall c :: c in s.breakdown <==> c != Income && c in KeySet(ts, CategoryOf)
    ensures forall c :: c in s.breakdown ==> s.breakdown[c].amount >= 0.0
    ensures ts == [] ==> s.totalIncome == 0.0 && s.totalExpenses == 0.0 && s.savingsRate == 0.0
  {
    ExpenseKeys(ts);
    if ts == [] then BudgetSummary(0.0, 0.0, 0.0, 0.0, map[])
    else
      var exps := ExpenseRows(ts);
      var income := IncomeTotal(ts);
      var expenses := Abs(SumBy(exps, AmountOf));
      BudgetSummary(income, expenses, income - expenses, PercentOf(income - expenses, income),
                    BreakdownOf(exps, expenses))
  }

  /** `calculate_budget_summary`: totals, then one breakdown entry per expense group. */
  method CalculateBudgetSummary(ts: seq<Transaction>) returns (s: BudgetSummary)
    ensures s == SummaryOf(ts)
  {
    if ts == [] {
      return BudgetSummary(0.0, 0.0, 0.0, 0.0, map[]);
    }
    var exps := ExpenseRows(ts);
    var income := IncomeTotal(ts);
    var expenses := Abs(SumBy(exps, AmountOf));
    var net := income - expenses;
    var rate := if income > 0.0 then net / income * 100.0 else 0.0;
    var breakdown := BreakdownByCategory(exps, expenses);
    s := BudgetSummary(income, expenses, net, rate, breakdown);
  }

  /** The breakdown loop: one entry per category among the expense rows. */
  method BreakdownByCategory(exps: seq<Transaction>, expenses: real) returns (breakdown: map<Category, CategoryDetail>)
    ensures breakdown == BreakdownOf(exps, expenses)
  {
    breakdown := map[];
    var remaining := KeySet(exps, CategoryOf);
    while remaining != {}
      invariant remaining <= KeySet(exps, CategoryOf)
      invariant forall c :: c in breakdown <==> c in KeySet(exps, CategoryOf) && c !in remaining
      invariant forall c :: c in breakdown ==> breakdown[c] == DetailOf(exps, c, expenses)
      decreases remaining
    {
      var c :| c in remaining;
      var group := Select(exps, CategoryOf, c);
      var amount := Abs(SumBy(group, AmountOf));
      breakdown := breakdown[c := CategoryDetail(amount, if expenses > 0.0 then amount / expenses * 100.0 else 0.0)];
      remaining := remaining - {c};
    }
  }

  function AmountMap(b: map<Category, CategoryDetail>): (m: map<Category, real>)
    ensures m.Keys == b.Keys
  {
    map c | c in b :: b[c].amount
  }

  function PercentMap(b: map<Category, CategoryDetail>): (m: map<Category, real>)
    ensures m.Keys == b.Keys
  {
    map c | c in b :: b[c].percentage
  }

  /** All non-income amounts share one sign. */
  predicate OneSignedExpenses(ts: seq<Transaction>)
  {
    (forall t :: t in ts && t.category != Income ==> t.amount <= 0.0)
    || (forall t :: t in ts && t.category != Income ==> t.amount >= 0.0)
  }

  /** Amounts all of one sign: all non-positive when `negative`, all non-negative otherwise. */
  predicate SignedAs(xs: seq<Transaction>, negative: bool)
  {
    forall t :: t in xs ==> if negative then t.amount <= 0.0 else t.amount >= 0.0
  }

  /** The magnitude of a sum of terms of one sign. */
  lemma SignedMagnitude(xs: seq<Transaction>, negative: bool)
    requires SignedAs(xs, negative)
    ensures Abs(SumBy(xs, AmountOf)) == if negative then -SumBy(xs, AmountOf) else SumBy(xs, AmountOf)
  {
    SumBySign(xs, AmountOf);
  }

  /**
   * With every expense amount of one sign, the breakdown amounts add up
   * to the magnitude of the expense total.
   */
  lemma MagnitudesTotal(exps: seq<Transaction>, negative: bool, e: real, ks: seq<Category>)
    requires SignedAs(exps, negative)
    requires Distinct(ks) && forall c :: c in ks
    ensures SumMapOver(AmountMap(BreakdownOf(exps, e)), ks) == Abs(SumBy(exps, AmountOf))
  {
    var m := AmountMap(BreakdownOf(exps, e));
    var g := GroupMap(exps, AmountOf, CategoryOf);
    assert m.Keys == g.Keys;
    forall c | c in m ensures m[c] == if negative then -g[c] else g[c] {
      var group := Select(exps, CategoryOf, c);
      SignedMagnitude(group, negative);
    }
    if negative {
      SumMapNegate(g, m, ks);
    } else {
      SumMapAgree(m, g, ks);
    }
    GroupMapTotal(exps, AmountOf, CategoryOf, ks);
    SignedMagnitude(exps, negative);
  }

  /**
   * When the expense amounts share one sign, the breakdown amounts add up to
   * `totalExpenses`: the magnitude of each group's sum is the sum of its
   * magnitudes.
   */
  lemma BreakdownAmountsTotal(ts: seq<Transaction>)
    requires OneSignedExpenses(ts)
    ensures SumMapOver(AmountMap(SummaryOf(ts).breakdown), AllCategories) == SummaryOf(ts).totalExpenses
  {
    if ts == [] {
      SumMapZero(AmountMap(SummaryOf(ts).breakdown), AllCategories);
    } else {
      var exps := ExpenseRows(ts);
      var negative := forall t :: t in ts && t.category != Income ==> t.amount <= 0.0;
      assert SignedAs(exps, negative);
      AllCategoriesListsEachOnce();
      MagnitudesTotal(exps, negative, Abs(SumBy(exps, AmountOf)), AllCategories);
    }
  }

  /** Against a positive total, every entry's percentage is its amount's share of it. */
  lemma BreakdownShares(exps: seq<Transaction>, e: real)
    requires e > 0.0
    ensures forall c :: c in BreakdownOf(exps, e) ==>
              BreakdownOf(exps, e)[c].percentage == BreakdownOf(exps, e)[c].amount / e * 100.0
  {
  }

  /** Percentages of `e` are the amounts scaled by `100 / e`. */
  lemma SharesScale(b: map<Category, CategoryDetail>, e: real, scale: real)
    requires e > 0.0 && scale == 100.0 / e
    requires forall c :: c in b ==> b[c].percentage == b[c].amount / e * 100.0
    ensures forall c :: c in b ==> b[c].percentage == b[c].amount * scale
    ensures scale * e == 100.0
  {
    forall c | c in b ensures b[c].percentage == b[c].amount * scale {
      PercentScales(b[c].amount, e, scale);
    }
    PercentScales(0.0, e, scale);
  }

  /** Amounts scaled so that their total becomes 100 add up to 100. */
  lemma SharesSumTo100(b: map<Category, CategoryDetail>, e: real, scale: real, ks: seq<Category>)
    requires scale * e == 100.0
    requires forall c :: c in b ==> b[c].percentage == b[c].amount * scale
    requires SumMapOver(AmountMap(b), ks) == e
    ensures SumMapOver(PercentMap(b), ks) == 100.0
  {
    SumMapScale(AmountMap(b), PercentMap(b), scale, ks);
  }

  /** With every expense amount of one sign and a non-zero total, the shares add up to 100. */
  lemma SharesOfSignedTotal(exps: seq<Transaction>, negative: bool, e: real, ks: seq<Category>)
    requires SignedAs(exps, negative)
    requires e == Abs(SumBy(exps, AmountOf)) && e > 0.0
    requires Distinct(ks) && forall c :: c in ks
    ensures SumMapOver(PercentMap(BreakdownOf(exps, e)), ks) == 100.0
  {
    var b := BreakdownOf(exps, e);
    var scale := 100.0 / e;
    MagnitudesTotal(exps, negative, e, ks);
    BreakdownShares(exps, e);
    SharesScale(b, e, scale);
    SharesSumTo100(b, e, scale, ks);
  }

  /**
   * When the expense amounts share one sign and are not all zero, the
   * breakdown percentages add up to 100.
   */
  lemma PercentagesSumTo100(ts: seq<Transaction>)
    requires OneSignedExpenses(ts)
    requires SummaryOf(ts).totalExpenses > 0.0
    ensures SumMapOver(PercentMap(SummaryOf(ts).breakdown), AllCategories) == 100.0
  {
    var exps := ExpenseRows(ts);
    var negative := forall t :: t in ts && t.category != Income ==> t.amount <= 0.0;
    assert SignedAs(exps, negative);
    AllCategoriesListsEachOnce();
    SharesOfSignedTotal(exps, negative, Abs(SumBy(exps, AmountOf)), AllCategories);
  }

  /** With no expense at all (or all expenses netting to zero) every percentage is 0. */
  lemma PercentagesZeroWithoutExpenses(ts: seq<Transaction>)
    requires SummaryOf(ts).totalExpenses == 0.0
    ensures forall c :: c in SummaryOf(ts).breakdown ==> SummaryOf(ts).breakdown[c].percentage == 0.0
  {
  }

  /** A food expense of -100 followed by a shopping refund of +50. */
  predicate MixedSignPair(x: Transaction, y: Transaction)
  {
    x.category == Food && x.amount == -100.0 && y.category == Shopping && y.amount == 50.0
  }

  /** The pair's rows are all expenses, totalling -50. */
  lemma MixedSignExpenses(x: Transaction, y: Transaction)
    requires MixedSignPair(x, y)
    ensures ExpenseRows([x, y]) == [x, y]
    ensures SumBy([x, y], AmountOf) == -50.0
  {
    var ts := [x, y];
    assert ts[..1] == [x];
    assert Select(ts[..1], IsExpense, true) == [x];
    SumBySingle(x, AmountOf);
  }

  /** One row per category: food totals -100 and shopping 50. */
  lemma MixedSignGroups(x: Transaction, y: Transaction)
    requires MixedSignPair(x, y)
    ensures KeySet([x, y], CategoryOf) == {Food, Shopping}
    ensures GroupTotal([x, y], AmountOf, CategoryOf, Food) == -100.0
    ensures GroupTotal([x, y], AmountOf, CategoryOf, Shopping) == 50.0
  {
    var ts := [x, y];
    assert ts[..1] == [x];
    assert Select(ts[..1], CategoryOf, Food) == [x];
    assert Select(ts[..1], CategoryOf, Shopping) == [];
    SumBySingle(x, AmountOf);
    SumBySingle(y, AmountOf);
    assert CategoryOf(ts[0]) == Food && CategoryOf(ts[1]) == Shopping;
    assert forall i :: 0 <= i < |ts| ==> CategoryOf(ts[i]) in {Food, Shopping};
  }

  /**
   * With mixed signs the percentages do not add up to 100: a food expense
   * of -100 and a shopping refund of +50 give total expenses of 50 and
   * percentages 200 and 100.
   */
  lemma MixedSignPercentages(x: Transaction, y: Transaction)
    requires MixedSignPair(x, y)
    ensures var s := SummaryOf([x, y]);
            && s.totalExpenses == 50.0
            && s.breakdown == map[Food := CategoryDetail(100.0, 200.0), Shopping := CategoryDetail(50.0, 100.0)]
  {
    MixedSignExpenses(x, y);
    MixedSignBreakdown(x, y);
  }

  /** The pair's breakdown against total expenses of 50. */
  lemma MixedSignBreakdown(x: Transaction, y: Transaction)
    requires MixedSignPair(x, y)
    ensures BreakdownOf([x, y], 50.0) == map[Food := CategoryDetail(100.0, 200.0), Shopping := CategoryDetail(50.0, 100.0)]
  {
    MixedSignGroups(x, y);
    MixedSignDetails(x, y);
    var b := BreakdownOf([x, y], 50.0);
    assert b.Keys == {Food, Shopping};
  }

  /** Food's entry is 100 (200 percent) and shopping's 50 (100 percent). */
  lemma MixedSignDetails(x: Transaction, y: Transaction)
    requires MixedSignPair(x, y)
    ensures DetailOf([x, y], Food, 50.0) == CategoryDetail(100.0, 200.0)
    ensures DetailOf([x, y], Shopping, 50.0) == CategoryDetail(50.0, 100.0)
  {
    MixedSignGroups(x, y);
  }

  // ---------------------------------------------------------------------
  // Fixed and discretionary spending

  const FixedCategories: set<Category> := {Housing, Utilities, Debt}

  const DiscretionaryCategories: set<Category> :=
    {Entertainment, Shopping, Food, Transport, Health, Education, Personal, Other}

  /** The result of `classify_fixed_expenses` / `classify_discretionary_expenses`. */
  datatype ExpenseGroup = ExpenseGroup(total: real, percentageOfIncome: real, breakdown: map<Category, CategoryDetail>)

  function Restrict(b: map<Category, CategoryDetail>, members: set<Category>): map<Category, CategoryDetail>
  {
    map c | c in b && c in members :: b[c]
  }

  /** The breakdown entries of the member categories, their total and its share of income. */
  function GroupOf(s: BudgetSummary, members: set<Category>): (g: ExpenseGroup)
    ensures forall c :: c in g.breakdown <==> c in s.breakdown && c in members
    ensures forall c :: c in g.breakdown ==> g.breakdown[c] == s.breakdown[c]
    ensures s.totalIncome <= 0.0 ==> g.percentageOfIncome == 0.0
  {
    var sub := Restrict(s.breakdown, members);
    var total := SumMapOver(AmountMap(sub), AllCategories);
    ExpenseGroup(total, PercentOf(total, s.totalIncome), sub)
  }

  /** The shared loop of the two classifiers: copy member entries, accumulate their amounts. */
  method CollectMembers(b: map<Category, CategoryDetail>, members: set<Category>)
    returns (sub: map<Category, CategoryDetail>, total: real)
    ensures sub == Restrict(b, members)
    ensures total == SumMapOver(AmountMap(sub), AllCategories)
  {
    total := 0.0;
    sub := map[];
    ghost var target := map c | c in b && c in members :: b[c].amount;
    var i := 0;
    while i < |AllCategories|
      invariant 0 <= i <= |AllCategories|
      invariant forall c :: c in sub <==> CategoryIndex(c) < i && c in b && c in members
      invariant forall c :: c in sub ==> sub[c] == b[c]
      invariant total == SumMapOver(target, AllCategories[..i])
    {
      var c := AllCategories[i];
      IndexOfListed(i);
      SumMapOverPrefix(target, AllCategories, i);
      if c in b && c in members {
        sub := sub[c := b[c]];
        total := total + b[c].amount;
      }
      i := i + 1;
    }
    assert AllCategories[..i] == AllCategories;
    RestrictCollected(b, members, sub);
    assert AmountMap(sub) == target;
  }

  /** A map holding exactly the member entries of `b`, unchanged, is their restriction. */
  lemma RestrictCollected(b: map<Category, CategoryDetail>, members: set<Category>, sub: map<Category, CategoryDetail>)
    requires forall c :: c in sub <==> c in b && c in members
    requires forall c :: c in sub ==> sub[c] == b[c]
    ensures sub == Restrict(b, members)
  {
  }

  /** `classify_fixed_expenses` and `classify_discretionary_expenses` share this body. */
  method ClassifyExpenses(s: BudgetSummary, members: set<Category>) returns (g: ExpenseGroup)
    ensures g == GroupOf(s, members)
  {
    var sub, total := CollectMembers(s.breakdown, members);
    var percentage := if s.totalIncome > 0.0 then (total / s.totalIncome) * 100.0 else 0.0;
    g := ExpenseGroup(total, percentage, sub);
  }

  method ClassifyFixedExpenses(s: BudgetSummary) returns (g: ExpenseGroup)
    ensures g == GroupOf(s, FixedCategories)
  {
    g := ClassifyExpenses(s, FixedCategories);
  }

  method ClassifyDiscretionaryExpenses(s: BudgetSummary) returns (g: ExpenseGroup)
    ensures g == GroupOf(s, DiscretionaryCategories)
  {
    g := ClassifyExpenses(s, DiscretionaryCategories);
  }

  /**
   * Fixed and discretionary are disjoint; savings, investment and income
   * are in neither; every other category is in exactly one of them.
   */
  lemma ClassesPartition()
    ensures FixedCategories !! DiscretionaryCategories
    ensures forall c :: c !in FixedCategories && c !in DiscretionaryCategories
                        <==> c == Savings || c == Investment || c == Income
  {
  }

  /** Restricting to two disjoint sets of categories splits the sum of amounts in two. */
  lemma RestrictSplit(b: map<Category, CategoryDetail>, x: set<Category>, y: set<Category>, ks: seq<Category>)
    requires x !! y
    ensures SumMapOver(AmountMap(Restrict(b, x + y)), ks)
            == SumMapOver(AmountMap(Restrict(b, x)), ks) + SumMapOver(AmountMap(Restrict(b, y)), ks)
  {
    SumMapPartition(AmountMap(Restrict(b, x + y)), AmountMap(Restrict(b, x)), AmountMap(Restrict(b, y)), ks);
  }

  /** Restricting to a set that holds every category changes nothing. */
  lemma RestrictToAll(b: map<Category, CategoryDetail>, x: set<Category>)
    requires forall c :: c in x
    ensures Restrict(b, x) == b
  {
  }

  /**
   * The fixed total, the discretionary total and the amounts of savings and
   * investment (and of income, were it in the breakdown) add up to the sum
   * of all breakdown amounts.
   */
  lemma ClassifiedTotals(s: BudgetSummary)
    ensures GroupOf(s, FixedCategories).total + GroupOf(s, DiscretionaryCategories).total
            + SumMapOver(AmountMap(Restrict(s.breakdown, {Savings, Investment, Income})), AllCategories)
            == SumMapOver(AmountMap(s.breakdown), AllCategories)
  {
    ThreeWaySplit(s.breakdown);
  }

  /** The three classes of categories split the sum of a breakdown's amounts. */
  lemma ThreeWaySplit(b: map<Category, CategoryDetail>)
    ensures SumMapOver(AmountMap(Restrict(b, FixedCategories)), AllCategories)
            + SumMapOver(AmountMap(Restrict(b, DiscretionaryCategories)), AllCategories)
            + SumMapOver(AmountMap(Restrict(b, {Savings, Investment, Income})), AllCategories)
            == SumMapOver(AmountMap(b), AllCategories)
  {
    ClassesPartition();
    RestrictThree(b, FixedCategories, DiscretionaryCategories, {Savings, Investment, Income}, AllCategories);
  }

  /** Three disjoint sets that together hold every category split the sum in three. */
  lemma RestrictThree(b: map<Category, CategoryDetail>, x: set<Category>, y: set<Category>, z: set<Category>, ks: seq<Category>)
    requires x !! y && x !! z && y !! z
    requires forall c :: c in x || c in y || c in z
    ensures SumMapOver(AmountMap(Restrict(b, x)), ks) + SumMapOver(AmountMap(Restrict(b, y)), ks)
            + SumMapOver(AmountMap(Restrict(b, z)), ks)
            == SumMapOver(AmountMap(b), ks)
  {
    RestrictSplit(b, y, z, ks);
    RestrictSplit(b, x, y + z, ks);
    RestrictToAll(b, x + (y + z));
  }

  // ---------------------------------------------------------------------
  // The 50/30/20 rule

  datatype BudgetBenchmarks = BudgetBenchmarks(needs: real, wants: real, savings: real, rule: string)

  /** `calculate_budget_benchmarks`: income split 50:30:20 into needs, wants and savings. */
  function CalculateBudgetBenchmarks(totalIncome: real): (b: BudgetBenchmarks)
    ensures b.needs + b.wants + b.savings == totalIncome
    ensures 3.0 * b.needs == 5.0 * b.wants && 2.0 * b.wants == 3.0 * b.savings
    ensures b.rule == "50/30/20"
  {
    BudgetBenchmarks(totalIncome * 0.5, totalIncome * 0.3, totalIncome * 0.2, "50/30/20")
  }

  // ---------------------------------------------------------------------
  // Category analysis

  datatype Status = Below | Normal | Above

  /** A typical range, in percent of income, and the display name. */
  datatype Benchmark = Benchmark(min: real, max: real, name: string)

  /** The benchmark table; every category but income has an entry. */
  function TableEntry(c: Category): (r: Option<Benchmark>)
    ensures r.None? <==> c == Income
    ensures r.Some? ==> 0.0 <= r.value.min < r.value.max
  {
    match c
    case Housing => Some(Benchmark(25.0, 35.0, "Housing"))
    case Utilities => Some(Benchmark(5.0, 10.0, "Utilities"))
    case Food => Some(Benchmark(10.0, 15.0, "Food"))
    case Transport => Some(Benchmark(5.0, 15.0, "Transportation"))
    case Entertainment => Some(Benchmark(5.0, 10.0, "Entertainment"))
    case Health => Some(Benchmark(5.0, 10.0, "Healthcare"))
    case Education => Some(Benchmark(2.0, 5.0, "Education"))
    case Shopping => Some(Benchmark(5.0, 10.0, "Shopping"))
    case Personal => Some(Benchmark(5.0, 10.0, "Personal Care"))
    case Debt => Some(Benchmark(0.0, 15.0, "Debt Payments"))
    case Savings => Some(Benchmark(15.0, 20.0, "Savings"))
    case Investment => Some(Benchmark(10.0, 15.0, "Investments"))
    case Other => Some(Benchmark(0.0, 5.0, "Other"))
    case Income => None
  }

  /** The table entry, or the `{0, 0, capitalized name}` default. */
  function BenchmarkFor(c: Category): Benchmark
  {
    match TableEntry(c)
    case Some(b) => b
    case None => Benchmark(0.0, 0.0, Text.Capitalize(CategoryName(c)))
  }

  /**
   * `round(x, 1)`, rounding halves upwards (Python rounds the binary value
   * half-to-even; the two differ only on exact ties).
   */
  function Round1(x: real): (r: real)
    ensures x - 0.05 < r <= x + 0.05
    ensures (10.0 * r).Floor as real == 10.0 * r
  {
    ((10.0 * x + 0.5).Floor as real) / 10.0
  }

  /** `below` under the minimum, `above` over the maximum, `normal` in between. */
  function StatusFor(p: real, b: Benchmark): (st: Status)
    ensures st == Below <==> p < b.min
    ensures st == Above <==> b.min <= p && b.max < p
  {
    if p < b.min then Below else if p > b.max then Above else Normal
  }

  /** The category-specific sentence appended to the advice. */
  datatype AdviceNote =
    | NoNote | EfficientGroceries | BuildSecurity | AllocateIfNeeded | LimitsFlexibility | ReduceDiscretionary

  /** An advice message: where the share fell, the category's display name, and the note. */
  datatype Advice = Advice(position: Status, name: string, note: AdviceNote)

  /** The advice, chosen against the table entry as first looked up. */
  function AdviceFor(c: Category, p: real, b: Benchmark): (a: Advice)
    ensures a.position == StatusFor(p, b)
    ensures a.name == b.name
    ensures a.note != NoNote ==> a.position != Normal
  {
    if p < b.min then
      Advice(Below, b.name,
             if c == Food then EfficientGroceries
             else if c == Savings || c == Investment then BuildSecurity
             else if c == Transport || c == Entertainment then AllocateIfNeeded
             else NoNote)
    else if p > b.max then
      Advice(Above, b.name,
             if c == Housing then LimitsFlexibility
             else if c == Entertainment || c == Shopping then ReduceDiscretionary
             else NoNote)
    else
      Advice(Normal, b.name, NoNote)
  }

  function NoteText(n: AdviceNote): string
  {
    match n
    case NoNote => ""
    case EfficientGroceries => " This is good if you're being efficient with grocery shopping, but ensure you're meeting nutritional needs."
    case BuildSecurity => " Consider allocating more to build financial security."
    case AllocateIfNeeded => " Consider allocating more to this category if needed."
    case LimitsFlexibility => " This may limit flexibility in other areas. Consider if downsizing is an option."
    case ReduceDiscretionary => " Look for opportunities to reduce discretionary spending here."
  }

  /** The advice as the message string the service returns. */
  function AdviceText(a: Advice): string
  {
    var position := match a.position
      case Below => " is below typical ranges."
      case Above => " is above typical ranges."
      case Normal => " is within typical ranges.";
    "Your spending in " + a.name + position + NoteText(a.note)
  }

  datatype CategoryAnalysis = CategoryAnalysis(
    amount: real,
    percentageOfIncome: real,
    benchmarkMin: real,
    benchmarkMax: real,
    status: Status,
    advice: Advice)

  /** `analyze_categories`' result: the error marker, or one analysis per breakdown category. */
  datatype Analysis = IncomeRequired | Analysed(categories: map<Category, CategoryAnalysis>)

  /** The benchmark reported for `c`: investment's maximum is widened to 20 after the advice is chosen. */
  function ReportedBenchmark(c: Category): (b: Benchmark)
    ensures c != Investment ==> b == BenchmarkFor(c)
    ensures c == Investment ==> b.min == 10.0 && b.max == 20.0
  {
    var b := BenchmarkFor(c);
    if c == Investment then b.(max := 20.0) else b
  }

  /**
   * One category's analysis: its share of income rounded to a tenth, the
   * reported range, the status against that range, and the advice chosen
   * against the table entry.
   */
  function AnalysisFor(c: Category, amount: real, income: real): (a: CategoryAnalysis)
    requires income > 0.0
    ensures a.amount == amount
    ensures a.percentageOfIncome == Round1(amount / income * 100.0)
    ensures a.status == Below <==> a.percentageOfIncome < a.benchmarkMin
    ensures a.status == Above <==> a.benchmarkMin <= a.percentageOfIncome && a.benchmarkMax < a.percentageOfIncome
    ensures a.benchmarkMin == ReportedBenchmark(c).min && a.benchmarkMax == ReportedBenchmark(c).max
    ensures a.advice == AdviceFor(c, a.percentageOfIncome, BenchmarkFor(c))
  {
    var p := Round1(amount / income * 100.0);
    var reported := ReportedBenchmark(c);
    CategoryAnalysis(amount, p, reported.min, reported.max, StatusFor(p, reported), AdviceFor(c, p, BenchmarkFor(c)))
  }

  /** What `analyze_categories` returns for a summary. */
  function AnalysisOf(s: BudgetSummary): (r: Analysis)
    ensures r == IncomeRequired <==> s.totalIncome <= 0.0
    ensures r.Analysed? ==> r.categories.Keys == s.breakdown.Keys
    ensures r.Analysed? ==> forall c :: c in r.categories ==>
      r.categories[c] == AnalysisFor(c, s.breakdown[c].amount, s.totalIncome)
  {
    if s.totalIncome <= 0.0 then IncomeRequired
    else Analysed(map c | c in s.breakdown :: AnalysisFor(c, s.breakdown[c].amount, s.totalIncome))
  }

  /**
   * The body of `analyze_categories`' loop for one category: status and
   * advice against the table entry, then investment's maximum widened and
   * the status determined again.
   */
  method AnalyzeCategory(c: Category, amount: real, income: real) returns (a: CategoryAnalysis)
    requires income > 0.0
    ensures a == AnalysisFor(c, amount, income)
  {
    var p := Round1((amount / income) * 100.0);
    var benchmark := BenchmarkFor(c);
    var status := Normal;
    var advice := AdviceFor(c, p, benchmark);
    if p < benchmark.min {
      status := Below;
    } else if p > benchmark.max {
      status := Above;
    }
    if c == Investment {
      benchmark := benchmark.(max := 20.0);
    }
    if p < benchmark.min {
      status := Below;
    } else if p > benchmark.max {
      status := Above;
    } else {
      status := Normal;
    }
    a := CategoryAnalysis(amount, p, benchmark.min, benchmark.max, status, advice);
  }

  /** `analyze_categories`: status and advice per breakdown entry, in breakdown order. */
  method AnalyzeCategories(s: BudgetSummary) returns (r: Analysis)
    ensures r == AnalysisOf(s)
  {
    var income := s.totalIncome;
    if income <= 0.0 {
      return IncomeRequired;
    }
    var analysis: map<Category, CategoryAnalysis> := map[];
    var remaining := s.breakdown.Keys;
    while remaining != {}
      invariant remaining <= s.breakdown.Keys
      invariant forall c :: c in analysis <==> c in s.breakdown && c !in remaining
      invariant forall c :: c in analysis ==> analysis[c] == AnalysisFor(c, s.breakdown[c].amount, income)
      decreases remaining
    {
      var c :| c in remaining;
      var entry := AnalyzeCategory(c, s.breakdown[c].amount, income);
      analysis := analysis[c := entry];
      remaining := remaining - {c};
    }
    r := Analysed(analysis);
  }

  /**
   * Investment between 15 and 20 percent of income is reported `normal`
   * against a maximum of 20, with advice saying it is above typical ranges.
   */
  lemma InvestmentAdviceDisagreesWithStatus(amount: real, income: real)
    requires income > 0.0
    requires 15.0 < Round1(amount / income * 100.0) <= 20.0
    ensures var a := AnalysisFor(Investment, amount, income);
            a.status == Normal && a.benchmarkMax == 20.0 && a.advice == Advice(Above, "Investments", NoNote)
  {
  }

  /** Outside investment the reported range is the table's, so status and advice agree. */
  lemma StatusAgreesWithAdvice(c: Category, amount: real, income: real)
    requires income > 0.0 && c != Investment
    ensures var a := AnalysisFor(c, amount, income);
            a.status == a.advice.position && a.status == StatusFor(a.percentageOfIncome, BenchmarkFor(c))
  {
  }

  /** Income, the one category without a table entry, is `above` at any positive rounded share. */
  lemma IncomeDefaultIsAbove(amount: real, income: real)
    requires income > 0.0
    requires Round1(amount / income * 100.0) > 0.0
    ensures AnalysisFor(Income, amount, income).status == Above
  {
  }

  // ---------------------------------------------------------------------
  // The combined analysis

  datatype SpendingPatterns =
    | NotEnoughData
    | Advanced(summary: BudgetSummary, fixedExpenses: ExpenseGroup, discretionaryExpenses: ExpenseGroup,
               benchmarks: BudgetBenchmarks, categoryAnalysis: Analysis)

  /** `analyze_spending_patterns`: the message for no transactions, otherwise every analysis above. */
  method AnalyzeSpendingPatterns(ts: seq<Transaction>) returns (r: SpendingPatterns)
    ensures r == NotEnoughData <==> ts == []
    ensures r.Advanced? ==>
              && r.summary == SummaryOf(ts)
              && r.fixedExpenses == GroupOf(r.summary, FixedCategories)
              && r.discretionaryExpenses == GroupOf(r.summary, DiscretionaryCategories)
              && r.benchmarks == CalculateBudgetBenchmarks(r.summary.totalIncome)
              && r.categoryAnalysis == AnalysisOf(r.summary)
  {
    if ts == [] {
      return NotEnoughData;
    }
    var summary := CalculateBudgetSummary(ts);
    var fixed := ClassifyFixedExpenses(summary);
    var discretionary := ClassifyDiscretionaryExpenses(summary);
    var benchmarks := CalculateBudgetBenchmarks(summary.totalIncome);
    var analysis := AnalyzeCategories(summary);
    r := Advanced(summary, fixed, discretionary, benchmarks, analysis);
  }
}
