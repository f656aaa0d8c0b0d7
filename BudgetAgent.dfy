/**
 * The budget planner (app/agents/budget_agent.py): the spending analysis
 * it hands to the language model, the choice of the recent transactions
 * it shows, and the line-by-line reading of the model's reply into a
 * budget plan. The reply is a parameter; so is `float()`, written
 * `parse`, which reads a number from a word or fails.
 */
module BudgetAgent {
  import opened Sums
  import opened Domain
  import opened Text
  import opened Ordering
  import opened DataProcessor
  import opened Reading

  // ---------------------------------------------------------------------
  // Spending patterns
  // ---------------------------------------------------------------------

  /** A calendar month, the key of `to_period("M")`. */
  datatype Month = Month(year: int, month: int)

  /**
   * The calendar month (UTC) of a transaction: whole days since the epoch
   * turned into a proleptic Gregorian date, counting in 400-year eras
   * whose years start in March.
   */
  function MonthOf(t: Transaction): (m: Month)
    ensures 1 <= m.month <= 12
  {
    var z := t.timestamp / 86400 + 719468;
    var era := z / 146097;
    var doe := z - era * 146097;
    var yoe := (doe - doe / 1460 + doe / 36524 - doe / 146096) / 365;
    var doy := doe - (365 * yoe + yoe / 4 - yoe / 100);
    var mp := (5 * doy + 2) / 153;
    var m := if mp < 10 then mp + 3 else mp - 9;
    var y := yoe + era * 400;
    Month(if m <= 2 then y + 1 else y, m)
  }

  /** What `_analyze_spending_patterns` returns. */
  datatype SpendingPatterns = SpendingPatterns(
    summary: SpendingSummary,
    monthlySpending: map<Month, real>,
    categoryTrend: map<Category, map<Month, real>>)

  /** Per expense category, its amounts grouped by month. */
  function TrendsOf(exps: seq<Transaction>): (m: map<Category, map<Month, real>>)
    ensures m.Keys == KeySet(exps, CategoryOf)
  {
    map c | c in KeySet(exps, CategoryOf) :: GroupMap(Select(exps, CategoryOf, c), AmountOf, MonthOf)
  }

  /**
   * The analysis of `ts`: the same totals, per-category sums and shares as
   * `calculate_spending_by_category`, the expenses per month, and each
   * expense category's spending per month.
   */
  function PatternsOf(ts: seq<Transaction>): (p: SpendingPatterns)
    ensures p.summary == SpendingOf(ts)
    ensures p.categoryTrend.Keys == p.summary.categorySpending.Keys
    ensures p.monthlySpending.Keys == KeySet(ExpenseRows(ts), MonthOf)
  {
    ExpenseKeys(ts);
    var exps := ExpenseRows(ts);
    SpendingPatterns(SpendingOf(ts), GroupMap(exps, AmountOf, MonthOf), TrendsOf(exps))
  }

  /** The monthly expenses add up to the total expenses. */
  lemma MonthlySumsToExpenses(ts: seq<Transaction>)
    ensures var p := PatternsOf(ts);
            SumMapOver(p.monthlySpending, KeysInOrder(ExpenseRows(ts), MonthOf)) == p.summary.totalExpenses
  {
    GroupsSumInOrder(ExpenseRows(ts), AmountOf, MonthOf);
  }

  /** A category's trend adds up, over its months, to that category's spending. */
  lemma TrendSumsToCategory(ts: seq<Transaction>, c: Category)
    requires c in PatternsOf(ts).categoryTrend
    ensures var p := PatternsOf(ts);
            var rows := Select(ExpenseRows(ts), CategoryOf, c);
            SumMapOver(p.categoryTrend[c], KeysInOrder(rows, MonthOf)) == p.summary.categorySpending[c]
  {
    GroupsSumInOrder(Select(ExpenseRows(ts), CategoryOf, c), AmountOf, MonthOf);
  }

  /** `_analyze_spending_patterns`. */
  method AnalyzeSpendingPatterns(ts: seq<Transaction>) returns (p: SpendingPatterns)
    ensures p == PatternsOf(ts)
  {
    var summary := CalculateSpendingByCategory(ts);
    var exps := ExpenseRows(ts);
    var monthly := GroupMap(exps, AmountOf, MonthOf);
    var trend := FillTrends(exps);
    p := SpendingPatterns(summary, monthly, trend);
  }

  /** The loop over the categories present among the expenses, grouping each one's rows by month. */
  method FillTrends(exps: seq<Transaction>) returns (trend: map<Category, map<Month, real>>)
    ensures trend == TrendsOf(exps)
  {
    trend := map[];
    var remaining := KeySet(exps, CategoryOf);
    while remaining != {}
      invariant remaining <= KeySet(exps, CategoryOf)
      invariant forall c :: c in trend <==> c in KeySet(exps, CategoryOf) && c !in remaining
      invariant forall c :: c in trend ==> trend[c] == GroupMap(Select(exps, CategoryOf, c), AmountOf, MonthOf)
      decreases remaining
    {
      var c :| c in remaining;
      var rows := Select(exps, CategoryOf, c);
      trend := trend[c := GroupMap(rows, AmountOf, MonthOf)];
      remaining := remaining - {c};
    }
  }

  // ---------------------------------------------------------------------
  // The transactions shown to the model
  // ---------------------------------------------------------------------

  /** How many transactions the prompt lists. */
  const RecentLimit := 20

  /** The newest `RecentLimit` transactions, newest first, ties in input order. */
  function RecentTransactions(ts: seq<Transaction>): (r: seq<Transaction>)
    ensures |r| == if |ts| < RecentLimit then |ts| else RecentLimit
    ensures forall i, j :: 0 <= i < j < |r| ==> r[i].timestamp >= r[j].timestamp
  {
    var sorted := SortBy(ts, NewestFirst);
    assert forall i, j :: 0 <= i < j < |sorted| ==> NewestFirst(sorted[i]) <= NewestFirst(sorted[j]);
    Take(sorted, RecentLimit)
  }

  /**
   * The listed transactions are taken from the input, and none left out is
   * newer than any listed one.
   */
  lemma RecentAreNewest(ts: seq<Transaction>)
    ensures multiset(RecentTransactions(ts)) <= multiset(ts)
    ensures forall t, u :: t in multiset(ts) - multiset(RecentTransactions(ts)) && u in RecentTransactions(ts)
              ==> t.timestamp <= u.timestamp
  {
    var sorted := SortBy(ts, NewestFirst);
    var r := RecentTransactions(ts);
    TakeSmallest(sorted, RecentLimit, NewestFirst);
    forall t, u | t in multiset(ts) - multiset(r) && u in r ensures t.timestamp <= u.timestamp {
      assert NewestFirst(u) <= NewestFirst(t);
    }
  }

  // ---------------------------------------------------------------------
  // Reading the reply
  // ---------------------------------------------------------------------

  /** The section of the reply the scan is in. */
  datatype Section = NoSection | LimitsSection | GeneralSection | CategorySection

  /** The state of the scan: the section, the category being advised on, and the plan's three collections. */
  datatype PlanScan = PlanScan(
    section: Section,
    currentCategory: Option<string>,
    limits: map<string, real>,
    general: seq<string>,
    categoryAdvice: map<string, seq<string>>)

  const StartScan := PlanScan(NoSection, None, map[], [], map[])

  predicate LimitsHeader(low: string)
  {
    Contains(low, "budget limit") || Contains(low, "category limit") || Contains(low, "spending limit")
  }

  predicate GeneralHeader(low: string)
  {
    Contains(low, "advice") || Contains(low, "tip") || (Contains(low, "recommendation") && !Contains(low, "category"))
  }

  predicate CategoryHeader(low: string)
  {
    Contains(low, "category") && (Contains(low, "tip") || Contains(low, "advice"))
  }

  /** The category and amount a line of the limits section sets, if it sets one. */
  function LimitEntry(line: string, parse: string -> Option<real>): Option<(string, real)>
  {
    if ':' in line && ('$' in line || '%' in line) then
      var parts := Split(line, ':');
      var category := ToLower(Strip(parts[0]));
      var amount := FirstMarked(Words(Strip(parts[1])), '$', "$,", parse);
      if amount.Some? && amount.value != 0.0 && category != [] then Some((category, amount.value)) else None
    else None
  }

  /**
   * A line sets a limit only if it holds a `:` and a `$` or `%`; the limit
   * has a non-empty, lower-case name and a non-zero amount.
   */
  lemma LimitEntryShape(line: string, parse: string -> Option<real>)
    ensures ('$' !in line && '%' !in line) || ':' !in line ==> LimitEntry(line, parse).None?
    ensures LimitEntry(line, parse).Some? ==>
              var e := LimitEntry(line, parse).value;
              e.0 != [] && e.1 != 0.0 && forall i :: 0 <= i < |e.0| ==> !IsUpper(e.0[i])
  {
  }

  /** The first of `names` that occurs in `part`. */
  function FirstNameIn(names: seq<string>, part: string): Option<string>
  {
    if names == [] then None
    else if Contains(part, ToLower(names[0])) then Some(names[0])
    else FirstNameIn(names[1..], part)
  }

  /** What a line of the per-category advice section holds: whether it has a `:`, the first category named before it, and the advice after it. */
  datatype CategoryLine = CategoryLine(colon: bool, named: Option<string>, advice: string)

  function CategoryLineOf(line: string, names: seq<string>): CategoryLine
  {
    if ':' in line then
      CategoryLine(true, FirstNameIn(names, ToLower(Strip(Split(line, ':')[0]))), Strip(AfterFirst(line, ':')))
    else CategoryLine(false, None, "")
  }

  /** A line of the per-category advice section. */
  function CategoryAdviceLine(st: PlanScan, line: string, cl: CategoryLine): PlanScan
  {
    if cl.colon && st.currentCategory.None? then
      match cl.named
      case None => st
      case Some(c) =>
        st.(currentCategory := Some(c), categoryAdvice := st.categoryAdvice[c := if cl.advice != [] then [cl.advice] else []])
    else if st.currentCategory.Some? && |line| > 10 then
      var c := st.currentCategory.value;
      var before := if c in st.categoryAdvice then st.categoryAdvice[c] else [];
      st.(categoryAdvice := st.categoryAdvice[c := before + [line]])
    else st
  }
  /** The test a line of the general section passes to become advice. */
  predicate IsAdvice(line: string)
  {
    |line| > 15 && line[0] != '#'
  }

  /** The section a header line opens; `None` when the line is not a header. */
  function HeaderSection(low: string): Option<Section>
  {
    if LimitsHeader(low) then Some(LimitsSection)
    else if GeneralHeader(low) then Some(GeneralSection)
    else if CategoryHeader(low) then Some(CategorySection)
    else None
  }

  /**
   * What a line of the reply is, whatever section the scan is in: blank
   * once stripped, a header opening a section, or a line to be read in
   * the current section, with the limit and the category advice it would
   * give there.
   */
  datatype PlanLine =
    | Blank
    | Header(section: Section)
    | Body(line: string, entry: Option<(string, real)>, category: CategoryLine)

  function ClassifyPlan(raw: string, names: seq<string>, parse: string -> Option<real>): PlanLine
  {
    var line := Strip(raw);
    if line == [] then Blank
    else
      match HeaderSection(ToLower(line))
      case Some(section) => Header(section)
      case None => Body(line, LimitEntry(line, parse), CategoryLineOf(line, names))
  }

  lemma ClassifyPlanCases(raw: string, names: seq<string>, parse: string -> Option<real>)
    ensures var line := Strip(raw);
            var header := HeaderSection(ToLower(line));
            (line == [] ==> ClassifyPlan(raw, names, parse) == Blank)
            && (line != [] && header.Some? ==> ClassifyPlan(raw, names, parse) == Header(header.value))
            && (line != [] && header.None? ==>
                  ClassifyPlan(raw, names, parse) == Body(line, LimitEntry(line, parse), CategoryLineOf(line, names)))
  {
  }

  /** A line that is not a header, read in the current section. */
  function SectionLine(st: PlanScan, line: string, entry: Option<(string, real)>, cl: CategoryLine): PlanScan
  {
    match st.section
    case LimitsSection =>
      (match entry
       case Some(e) => st.(limits := st.limits[e.0 := e.1])
       case None => st)
    case GeneralSection => if IsAdvice(line) then st.(general := st.general + [line]) else st
    case CategorySection => CategoryAdviceLine(st, line, cl)
    case NoSection => st
  }

  /** One line of the reply: blank lines are skipped, headers switch section, other lines are read in the section. */
  function ApplyPlan(st: PlanScan, kind: PlanLine): PlanScan
  {
    match kind
    case Blank => st
    case Header(section) => st.(section := section, currentCategory := None)
    case Body(line, entry, cl) => SectionLine(st, line, entry, cl)
  }

  /** One line of the reply applied to the scan. */
  function PlanStep(st: PlanScan, raw: string, names: seq<string>, parse: string -> Option<real>): PlanScan
  {
    ApplyPlan(st, ClassifyPlan(raw, names, parse))
  }

  function PlanKinds(lines: seq<string>, names: seq<string>, parse: string -> Option<real>): (kinds: seq<PlanLine>)
    ensures |kinds| == |lines|
  {
    seq(|lines|, k requires 0 <= k < |lines| => ClassifyPlan(lines[k], names, parse))
  }

  /** The scan after the first `m` lines. */
  function RunPlan(kinds: seq<PlanLine>, m: int): PlanScan
    requires 0 <= m <= |kinds|
  {
    if m == 0 then StartScan else ApplyPlan(RunPlan(kinds, m - 1), kinds[m - 1])
  }

  /** The scan after all the given lines. */
  function ScanPlan(lines: seq<string>, names: seq<string>, parse: string -> Option<real>): PlanScan
  {
    RunPlan(PlanKinds(lines, names, parse), |lines|)
  }
  /** The budget plan the agent returns. */
  datatype BudgetPlan = BudgetPlan(
    totalIncome: real,
    recommendedSavings: real,
    categoryLimits: map<string, real>,
    generalAdvice: seq<string>,
    categoryAdvice: map<string, seq<string>>)

  /** The names of the categories in `m`, in the order of its keys. */
  function NamesIn(cs: seq<Category>, m: map<Category, real>): seq<string>
  {
    if cs == [] then []
    else (if cs[0] in m then [CategoryName(cs[0])] else []) + NamesIn(cs[1..], m)
  }

  /** The keys of the summary's per-category spending, as strings. */
  function SpendingNames(s: SpendingSummary): seq<string>
  {
    NamesIn(AllCategories, s.categorySpending)
  }

  /** The fallback limit of each of `cs` that has a share, in turn: 90% of its past spending. */
  function FallbackOver(cs: seq<Category>, s: SpendingSummary): map<string, real>
  {
    if cs == [] then map[]
    else
      var c := cs[|cs| - 1];
      var m := FallbackOver(cs[..|cs| - 1], s);
      if HasFallback(s, c) then m[CategoryName(c) := FallbackValue(s, c)] else m
  }

  /** A category with a share other than "income" gets a fallback limit. */
  predicate HasFallback(s: SpendingSummary, c: Category)
  {
    c in s.categoryPercentages && c != Income
  }

  /** 90% of the category's past spending, 0 when it has none. */
  function FallbackValue(s: SpendingSummary, c: Category): real
  {
    (if c in s.categorySpending then s.categorySpending[c] else 0.0) * 0.9
  }

  /** The limits used when the reply sets none, in the order of the shares' keys. */
  function FallbackLimits(s: SpendingSummary): map<string, real>
  {
    FallbackOver(AllCategories, s)
  }

  /** The fallback names exactly the categories of `cs` that have a share, each with 90% of its spending. */
  lemma {:induction false} FallbackOverEntries(cs: seq<Category>, s: SpendingSummary)
    ensures forall c :: c in cs && HasFallback(s, c) ==>
              CategoryName(c) in FallbackOver(cs, s) && FallbackOver(cs, s)[CategoryName(c)] == FallbackValue(s, c)
    ensures forall k :: k in FallbackOver(cs, s) ==> exists c :: c in cs && HasFallback(s, c) && k == CategoryName(c)
  {
    if cs != [] {
      var last := cs[|cs| - 1];
      var init := cs[..|cs| - 1];
      FallbackOverEntries(init, s);
      assert cs == init + [last];
      forall c | c in cs && HasFallback(s, c)
        ensures CategoryName(c) in FallbackOver(cs, s) && FallbackOver(cs, s)[CategoryName(c)] == FallbackValue(s, c)
      {
        CategoryNameInjective(c, last);
      }
      forall k | k in FallbackOver(cs, s)
        ensures exists c :: c in cs && HasFallback(s, c) && k == CategoryName(c)
      {
        var before := FallbackOver(init, s);
        if k !in before {
          assert last in cs && k == CategoryName(last);
        } else {
          var c :| c in init && HasFallback(s, c) && k == CategoryName(c);
          assert c in cs;
        }
      }
    }
  }

  /** What `_process_budget_response` returns for `response`. */
  function PlanOf(response: string, s: SpendingSummary, parse: string -> Option<real>): BudgetPlan
  {
    var st := ScanPlan(Split(response, '\n'), SpendingNames(s), parse);
    BudgetPlan(
      s.totalIncome, s.totalIncome * 0.2,
      if st.limits == map[] then FallbackLimits(s) else st.limits,
      st.general, st.categoryAdvice)
  }

  /** `_process_budget_response`. */
  method ProcessBudgetResponse(response: string, s: SpendingSummary, parse: string -> Option<real>)
    returns (plan: BudgetPlan)
    ensures plan == PlanOf(response, s, parse)
  {
    var st := ReadReply(Split(response, '\n'), SpendingNames(s), parse);
    var limits := st.limits;
    if limits == map[] {
      limits := FillFallback(s);
    }
    plan := BudgetPlan(s.totalIncome, s.totalIncome * 0.2, limits, st.general, st.categoryAdvice);
  }

  /** The loop over the reply's lines. */
  method ReadReply(lines: seq<string>, names: seq<string>, parse: string -> Option<real>) returns (st: PlanScan)
    ensures st == ScanPlan(lines, names, parse)
  {
    st := StartScan;
    for i := 0 to |lines|
      invariant st == RunPlan(PlanKinds(lines, names, parse), i)
    {
      st := ReadPlanLine(st, lines[i], names, parse);
    }
  }

  /** The body of the loop over the reply's lines. */
  method ReadPlanLine(st: PlanScan, raw: string, names: seq<string>, parse: string -> Option<real>)
    returns (next: PlanScan)
    ensures next == PlanStep(st, raw, names, parse)
  {
    var line := Strip(raw);
    if line == [] {
      next := st;
    } else {
      var header := HeaderSection(ToLower(line));
      if header.Some? {
        next := st.(section := header.value, currentCategory := None);
      } else {
        next := ReadSectionLine(st, line, names, parse);
      }
    }
    ClassifyPlanCases(raw, names, parse);
  }

  /** A line that is not a header, read in the section the scan is in. */
  method ReadSectionLine(st: PlanScan, line: string, names: seq<string>, parse: string -> Option<real>)
    returns (next: PlanScan)
    ensures next == SectionLine(st, line, LimitEntry(line, parse), CategoryLineOf(line, names))
  {
    next := st;
    if st.section == LimitsSection {
      var e := LimitEntry(line, parse);
      if e.Some? {
        next := st.(limits := st.limits[e.value.0 := e.value.1]);
      }
    } else if st.section == GeneralSection {
      if |line| > 15 && line[0] != '#' {
        next := st.(general := st.general + [line]);
      }
    } else if st.section == CategorySection {
      next := CategoryAdviceLine(st, line, CategoryLineOf(line, names));
    }
  }

  /** The loop over the shares that sets the fallback limits. */
  method FillFallback(s: SpendingSummary) returns (limits: map<string, real>)
    ensures limits == FallbackLimits(s)
  {
    limits := map[];
    for i := 0 to |AllCategories|
      invariant limits == FallbackOver(AllCategories[..i], s)
    {
      var c := AllCategories[i];
      assert AllCategories[..i + 1][..i] == AllCategories[..i];
      if HasFallback(s, c) {
        var historical := if c in s.categorySpending then s.categorySpending[c] else 0.0;
        limits := limits[CategoryName(c) := historical * 0.9];
      }
    }
    assert AllCategories[..|AllCategories|] == AllCategories;
  }

  /** What `create_budget_plan` returns. */
  datatype PlanResult = PlanResult(status: string, message: string, budgetPlan: Option<BudgetPlan>)

  /** The result of `create_budget_plan` for `ts` when the model replies `reply`. */
  function BudgetPlanOf(ts: seq<Transaction>, targetSavingsPercent: real, reply: string, parse: string -> Option<real>)
    : (r: PlanResult)
    ensures r.budgetPlan.None? <==> ts == []
    ensures r.status == "error" <==> ts == []
  {
    if ts == [] then PlanResult("error", "No transaction data available to create a budget plan.", None)
    else PlanResult("completed", "Budget plan created successfully.", Some(PlanOf(reply, PatternsOf(ts).summary, parse)))
  }

  /** `create_budget_plan`, given the model's reply. */
  method CreateBudgetPlan(ts: seq<Transaction>, targetSavingsPercent: real, reply: string, parse: string -> Option<real>)
    returns (r: PlanResult)
    ensures r == BudgetPlanOf(ts, targetSavingsPercent, reply, parse)
  {
    if ts == [] {
      return PlanResult("error", "No transaction data available to create a budget plan.", None);
    }
    var patterns := AnalyzeSpendingPatterns(ts);
    var plan := ProcessBudgetResponse(reply, patterns.summary, parse);
    r := PlanResult("completed", "Budget plan created successfully.", Some(plan));
  }

  // ---------------------------------------------------------------------
  // Properties of the reading
  // ---------------------------------------------------------------------

  /**
   * The recommended savings are a fifth of the income whatever savings
   * target the caller asked for, and the plan does not depend on that target.
   */
  lemma SavingsTargetIgnored(ts: seq<Transaction>, t1: real, t2: real, reply: string, parse: string -> Option<real>)
    requires ts != []
    ensures BudgetPlanOf(ts, t1, reply, parse) == BudgetPlanOf(ts, t2, reply, parse)
    ensures BudgetPlanOf(ts, t1, reply, parse).budgetPlan.value.recommendedSavings == IncomeTotal(ts) * 0.2
  {
  }

  /** A header naming category tips or advice is already a general-advice header. */
  lemma CategoryHeaderShadowed(low: string)
    requires CategoryHeader(low)
    ensures GeneralHeader(low)
  {
  }

  /** The per-category advice section leaves the limits and the general advice alone. */
  lemma CategoryLineKeeps(st: PlanScan, line: string, cl: CategoryLine)
    ensures CategoryAdviceLine(st, line, cl).limits == st.limits
    ensures CategoryAdviceLine(st, line, cl).general == st.general
  {
  }

  /** No line of the reply opens the per-category advice section. */
  lemma ClassifyNeverCategory(raw: string, names: seq<string>, parse: string -> Option<real>)
    ensures ClassifyPlan(raw, names, parse) != Header(CategorySection)
  {
    var line := Strip(raw);
    if line != [] && CategoryHeader(ToLower(line)) {
      CategoryHeaderShadowed(ToLower(line));
    }
  }

  /** No line of `kinds` opens the per-category advice section. */
  predicate NoCategoryHeader(kinds: seq<PlanLine>)
  {
    forall k :: 0 <= k < |kinds| ==> kinds[k] != Header(CategorySection)
  }

  lemma KindsNeverCategory(lines: seq<string>, names: seq<string>, parse: string -> Option<real>)
    ensures NoCategoryHeader(PlanKinds(lines, names, parse))
  {
    var kinds := PlanKinds(lines, names, parse);
    forall k | 0 <= k < |kinds| ensures kinds[k] != Header(CategorySection) {
      ClassifyNeverCategory(lines[k], names, parse);
    }
  }

  lemma {:induction false} RunNeverCategory(kinds: seq<PlanLine>, m: int)
    requires 0 <= m <= |kinds| && NoCategoryHeader(kinds)
    ensures RunPlan(kinds, m).section != CategorySection
    ensures RunPlan(kinds, m).categoryAdvice == map[]
  {
    if m > 0 {
      RunNeverCategory(kinds, m - 1);
      assert kinds[m - 1] != Header(CategorySection);
    }
  }

  /** The scan never enters the per-category advice section. */
  lemma ScanNeverCategory(lines: seq<string>, names: seq<string>, parse: string -> Option<real>)
    ensures ScanPlan(lines, names, parse).section != CategorySection
    ensures ScanPlan(lines, names, parse).categoryAdvice == map[]
  {
    KindsNeverCategory(lines, names, parse);
    RunNeverCategory(PlanKinds(lines, names, parse), |lines|);
  }

  /** The plan's per-category advice is always empty. */
  lemma CategoryAdviceAlwaysEmpty(response: string, s: SpendingSummary, parse: string -> Option<real>)
    ensures PlanOf(response, s, parse).categoryAdvice == map[]
  {
    ScanNeverCategory(Split(response, '\n'), SpendingNames(s), parse);
  }

  /** A piece of general advice: longer than 15 characters, not a `#` heading, with no surrounding white space. */
  predicate AdviceShape(a: string)
  {
    |a| > 15 && a[0] != '#' && !IsSpace(a[0]) && !IsSpace(a[|a| - 1])
  }

  predicate AllAdvice(general: seq<string>)
  {
    forall i :: 0 <= i < |general| ==> AdviceShape(general[i])
  }

  /** A limit with a non-empty lower-case name and a non-zero amount. */
  predicate EntryShape(e: (string, real))
  {
    e.0 != [] && e.1 != 0.0 && forall i :: 0 <= i < |e.0| ==> !IsUpper(e.0[i])
  }

  /** Parsed limits: every one has a non-empty lower-case name and a non-zero amount. */
  predicate LimitShape(limits: map<string, real>)
  {
    forall k :: k in limits ==> EntryShape((k, limits[k]))
  }

  /** A line read in a section is stripped and non-empty, and any limit it sets is well shaped. */
  predicate BodyShaped(kind: PlanLine)
  {
    kind.Body? ==>
      kind.line != [] && !IsSpace(kind.line[0]) && !IsSpace(kind.line[|kind.line| - 1])
      && (kind.entry.Some? ==> EntryShape(kind.entry.value))
  }

  lemma ClassifyShaped(raw: string, names: seq<string>, parse: string -> Option<real>)
    ensures BodyShaped(ClassifyPlan(raw, names, parse))
  {
    var line := Strip(raw);
    if line != [] {
      LimitEntryShape(line, parse);
    }
  }

  lemma ApplyShapes(st: PlanScan, kind: PlanLine)
    requires AllAdvice(st.general) && LimitShape(st.limits) && BodyShaped(kind)
    ensures AllAdvice(ApplyPlan(st, kind).general)
    ensures LimitShape(ApplyPlan(st, kind).limits)
  {
    if kind.Body? {
      var line := kind.line;
      match st.section
      case LimitsSection =>
        if kind.entry.Some? {
          var e := kind.entry.value;
          var m := st.limits[e.0 := e.1];
          assert ApplyPlan(st, kind).limits == m;
          forall k | k in m ensures EntryShape((k, m[k])) {
            if k != e.0 {
              assert k in st.limits;
            }
          }
        }
      case GeneralSection =>
        if IsAdvice(line) {
          var g := st.general + [line];
          assert ApplyPlan(st, kind).general == g;
          assert forall i :: 0 <= i < |st.general| ==> g[i] == st.general[i];
          assert AdviceShape(g[|st.general|]);
        }
      case CategorySection =>
        CategoryLineKeeps(st, line, kind.category);
      case NoSection =>
    }
  }

  predicate AllShaped(kinds: seq<PlanLine>)
  {
    forall k :: 0 <= k < |kinds| ==> BodyShaped(kinds[k])
  }

  lemma {:induction false} RunShapes(kinds: seq<PlanLine>, m: int)
    requires 0 <= m <= |kinds| && AllShaped(kinds)
    ensures AllAdvice(RunPlan(kinds, m).general)
    ensures LimitShape(RunPlan(kinds, m).limits)
  {
    if m > 0 {
      RunShapes(kinds, m - 1);
      ApplyShapes(RunPlan(kinds, m - 1), kinds[m - 1]);
    }
  }

  /**
   * Every piece of general advice is a trimmed line longer than 15
   * characters that is not a `#` heading, and every limit read from the
   * reply has a non-empty lower-case name and a non-zero amount.
   */
  lemma ParsedPlanShapes(response: string, s: SpendingSummary, parse: string -> Option<real>)
    ensures AllAdvice(PlanOf(response, s, parse).generalAdvice)
    ensures var st := ScanPlan(Split(response, '\n'), SpendingNames(s), parse);
            st.limits != map[] ==> PlanOf(response, s, parse).categoryLimits == st.limits && LimitShape(st.limits)
  {
    var lines := Split(response, '\n');
    var kinds := PlanKinds(lines, SpendingNames(s), parse);
    forall k | 0 <= k < |kinds| ensures BodyShaped(kinds[k]) {
      ClassifyShaped(lines[k], SpendingNames(s), parse);
    }
    RunShapes(kinds, |lines|);
  }
  /** A character kept by `strip()` was in the line. */
  lemma InStripped(s: string, c: char)
    ensures c in Strip(s) ==> c in s
  {
    if c in Strip(s) {
      var i :| OccursAt(s, Strip(s), i);
      var j :| 0 <= j < |Strip(s)| && Strip(s)[j] == c;
      assert s[i + j] == Strip(s)[j];
    }
  }

  /** A line with no `$` and no `%` sets no limit. */
  lemma ClassifyNoAmount(raw: string, names: seq<string>, parse: string -> Option<real>)
    requires '$' !in raw && '%' !in raw
    ensures var kind := ClassifyPlan(raw, names, parse);
            kind.Body? ==> kind.entry.None?
  {
    InStripped(raw, '$');
    InStripped(raw, '%');
    LimitEntryShape(Strip(raw), parse);
  }

  /** No line of `kinds` sets a limit. */
  predicate NoEntry(kinds: seq<PlanLine>)
  {
    forall k :: 0 <= k < |kinds| ==> kinds[k].Body? ==> kinds[k].entry.None?
  }

  lemma ApplyKeepsLimits(st: PlanScan, kind: PlanLine)
    requires kind.Body? ==> kind.entry.None?
    ensures ApplyPlan(st, kind).limits == st.limits
  {
    if kind.Body? {
      CategoryLineKeeps(st, kind.line, kind.category);
    }
  }

  lemma {:induction false} RunKeepsLimits(kinds: seq<PlanLine>, m: int)
    requires 0 <= m <= |kinds| && NoEntry(kinds)
    ensures RunPlan(kinds, m).limits == map[]
  {
    if m > 0 {
      RunKeepsLimits(kinds, m - 1);
      ApplyKeepsLimits(RunPlan(kinds, m - 1), kinds[m - 1]);
    }
  }

  /** No line of a reply with no `$` and no `%` sets a limit. */
  lemma NoAmountKinds(response: string, names: seq<string>, parse: string -> Option<real>)
    requires '$' !in response && '%' !in response
    ensures NoEntry(PlanKinds(Split(response, '\n'), names, parse))
  {
    var lines := Split(response, '\n');
    var kinds := PlanKinds(lines, names, parse);
    forall k | 0 <= k < |kinds| ensures kinds[k].Body? ==> kinds[k].entry.None? {
      SplitKeeps(response, '\n', k, '$');
      SplitKeeps(response, '\n', k, '%');
      ClassifyNoAmount(lines[k], names, parse);
    }
  }

  /** Reading a reply with no `$` and no `%` sets no limit. */
  lemma NoAmountsNoLimits(response: string, names: seq<string>, parse: string -> Option<real>)
    requires '$' !in response && '%' !in response
    ensures ScanPlan(Split(response, '\n'), names, parse).limits == map[]
  {
    NoAmountKinds(response, names, parse);
    RunKeepsLimits(PlanKinds(Split(response, '\n'), names, parse), |Split(response, '\n')|);
  }

  /** A reply with no `$` and no `%` anywhere gets the fallback limits. */
  lemma NoAmountsMeansFallback(response: string, s: SpendingSummary, parse: string -> Option<real>)
    requires '$' !in response && '%' !in response
    ensures PlanOf(response, s, parse).categoryLimits == FallbackLimits(s)
  {
    NoAmountsNoLimits(response, SpendingNames(s), parse);
  }

  /**
   * When the shares name the same categories as the spending and income is
   * not among them, the fallback gives each of those categories 90% of
   * what was spent on it, and names nothing else.
   */
  lemma FallbackCovers(s: SpendingSummary)
    requires s.categoryPercentages.Keys == s.categorySpending.Keys && Income !in s.categorySpending
    ensures forall c :: c in s.categorySpending ==>
              CategoryName(c) in FallbackLimits(s) && FallbackLimits(s)[CategoryName(c)] == s.categorySpending[c] * 0.9
    ensures forall k :: k in FallbackLimits(s) ==> exists c :: c in s.categorySpending && k == CategoryName(c)
  {
    AllCategoriesListsEachOnce();
    FallbackOverEntries(AllCategories, s);
    forall k | k in FallbackLimits(s) ensures exists c :: c in s.categorySpending && k == CategoryName(c) {
      var c :| c in AllCategories && HasFallback(s, c) && k == CategoryName(c);
      assert c in s.categorySpending;
    }
  }

  /**
   * For spending computed from transactions, the fallback gives each
   * expense category 90% of what was spent on it, and names nothing else.
   */
  lemma FallbackCutsTenPercent(ts: seq<Transaction>, s: SpendingSummary)
    requires s == SpendingOf(ts)
    ensures forall c :: c in s.categorySpending ==>
              CategoryName(c) in FallbackLimits(s) && FallbackLimits(s)[CategoryName(c)] == s.categorySpending[c] * 0.9
    ensures forall k :: k in FallbackLimits(s) ==> exists c :: c in s.categorySpending && k == CategoryName(c)
  {
    FallbackCovers(s);
  }
}
