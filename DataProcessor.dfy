/**
 * The pandas-based analytics of app/utils/data_processor.py: a spending
 * summary on signed sums, a per-category z-score anomaly finder, and a
 * proportional cut of every category's spending that frees a savings
 * target.
 */
module DataProcessor {
  import opened Sums
  import opened Domain
  import opened Stats

  // ---------------------------------------------------------------------
  // Spending by category

  /** The dictionary `calculate_spending_by_category` returns. */
  datatype SpendingSummary = SpendingSummary(
    totalIncome: real,
    totalExpenses: real,
    netSavings: real,
    savingsRate: real,
    categorySpending: map<Category, real>,
    categoryPercentages: map<Category, real>)

  /** Each category's share of `expenses`, in percent; all 0 unless `expenses` is positive. */
  function PercentagesOf(spending: map<Category, real>, expenses: real): (p: map<Category, real>)
    ensures p.Keys == spending.Keys
    ensures expenses <= 0.0 ==> forall c :: c in p ==> p[c] == 0.0
  {
    map c | c in spending :: PercentOf(spending[c], expenses)
  }

  /** What `calculate_spending_by_category` returns for the rows `ts`. */
  function SpendingOf(ts: seq<Transaction>): (s: SpendingSummary)
    ensures s.netSavings == s.totalIncome - s.totalExpenses
    ensures s.totalIncome <= 0.0 ==> s.savingsRate == 0.0
    ensures forall c :: c in s.categorySpending <==> c != Income && c in KeySet(ts, CategoryOf)
    ensures s.categoryPercentages.Keys == s.categorySpending.Keys
    ensures s.totalExpenses <= 0.0 ==> forall c :: c in s.categoryPercentages ==> s.categoryPercentages[c] == 0.0
  {
    ExpenseKeys(ts);
    var exps := ExpenseRows(ts);
    var income := IncomeTotal(ts);
    var expenses := SumBy(exps, AmountOf);
    var spending := GroupMap(exps, AmountOf, CategoryOf);
    SpendingSummary(income, expenses, income - expenses, PercentOf(income - expenses, income),
                    spending, PercentagesOf(spending, expenses))
  }

  /** `calculate_spending_by_category`: totals, the group sums, then one percentage per group. */
  method CalculateSpendingByCategory(ts: seq<Transaction>) returns (s: SpendingSummary)
    ensures s == SpendingOf(ts)
  {
    var exps := ExpenseRows(ts);
    var income := IncomeTotal(ts);
    var expenses := SumBy(exps, AmountOf);
    var net := income - expenses;
    var rate := if income > 0.0 then net / income * 100.0 else 0.0;
    var spending := GroupMap(exps, AmountOf, CategoryOf);
    var percentages := FillPercentages(spending, expenses);
    s := SpendingSummary(income, expenses, net, rate, spending, percentages);
  }

  /** The percentage loop: one entry per category of `spending`. */
  method FillPercentages(spending: map<Category, real>, expenses: real) returns (p: map<Category, real>)
    ensures p == PercentagesOf(spending, expenses)
  {
    p := map[];
    var remaining := spending.Keys;
    while remaining != {}
      invariant remaining <= spending.Keys
      invariant forall c :: c in p <==> c in spending && c !in remaining
      invariant forall c :: c in p ==> p[c] == PercentOf(spending[c], expenses)
      decreases remaining
    {
      var c :| c in remaining;
      p := p[c := if expenses > 0.0 then spending[c] / expenses * 100.0 else 0.0];
      remaining := remaining - {c};
    }
  }

  /** Each percentage is its amount scaled by `scale`, which is `100 / e`. */
  lemma PercentagesScale(m: map<Category, real>, e: real, scale: real)
    requires e > 0.0 && scale == 100.0 / e
    ensures forall c :: c in m ==> PercentagesOf(m, e)[c] == m[c] * scale
    ensures scale * e == 100.0
  {
    forall c | c in m ensures PercentagesOf(m, e)[c] == m[c] * scale {
      PercentScales(m[c], e, scale);
    }
    PercentScales(0.0, e, scale);
  }

  /** Amounts that total `e`, scaled so that `e` becomes 100, total 100. */
  lemma ScaledTotal(m: map<Category, real>, p: map<Category, real>, e: real, scale: real, ks: seq<Category>)
    requires scale * e == 100.0
    requires p.Keys == m.Keys
    requires forall c :: c in m ==> p[c] == m[c] * scale
    requires SumMapOver(m, ks) == e
    ensures SumMapOver(p, ks) == 100.0
  {
    SumMapScale(m, p, scale, ks);
  }

  /** The group percentages of a positive signed total add up to 100. */
  lemma GroupSharesSumTo100(exps: seq<Transaction>, e: real, ks: seq<Category>)
    requires e == SumBy(exps, AmountOf) && e > 0.0
    requires Distinct(ks) && forall c :: c in ks
    ensures SumMapOver(PercentagesOf(GroupMap(exps, AmountOf, CategoryOf), e), ks) == 100.0
  {
    var g := GroupMap(exps, AmountOf, CategoryOf);
    var scale := 100.0 / e;
    GroupMapTotal(exps, AmountOf, CategoryOf, ks);
    PercentagesScale(g, e, scale);
    ScaledTotal(g, PercentagesOf(g, e), e, scale, ks);
  }

  /**
   * With a positive signed expense total the category percentages add up
   * to exactly 100, whatever the signs of the single amounts.
   */
  lemma SpendingPercentagesSumTo100(ts: seq<Transaction>)
    requires SpendingOf(ts).totalExpenses > 0.0
    ensures SumMapOver(SpendingOf(ts).categoryPercentages, AllCategories) == 100.0
  {
    AllCategoriesListsEachOnce();
    GroupSharesSumTo100(ExpenseRows(ts), SumBy(ExpenseRows(ts), AmountOf), AllCategories);
  }

  /** The category spending adds up to the signed expense total. */
  lemma SpendingAddsUp(ts: seq<Transaction>)
    ensures SumMapOver(SpendingOf(ts).categorySpending, AllCategories) == SpendingOf(ts).totalExpenses
  {
    AllCategoriesListsEachOnce();
    GroupMapTotal(ExpenseRows(ts), AmountOf, CategoryOf, AllCategories);
  }

  // ---------------------------------------------------------------------
  // Spending anomalies

  /** Fewer rows than this and no anomaly is looked for. */
  const MinRows := 5

  /** Fewer rows than this in a category and the category is skipped. */
  const MinCategoryRows := 3

  /** `std < 0.0001` is `variance < 0.0001^2`. */
  const MinVariance: real := 0.00000001

  const DefaultThreshold: real := 2.0

  /**
   * One reported anomaly. The reported `z_score` is
   * `(amount - avgAmount) / sqrt(sampleVariance)`.
   */
  datatype Anomaly = Anomaly(
    transactionId: string,
    category: Category,
    amount: real,
    timestamp: int,
    avgAmount: real,
    sampleVariance: real,
    isHigh: bool)

  /** The amount column of `rows`. */
  /** The record for `row` in a category with mean `mean` and variance `v`; `is_high` is `z > 0`. */
  function AnomalyOf(row: Transaction, mean: real, v: real): (a: Anomaly)
    ensures a.isHigh <==> a.amount > a.avgAmount
  {
    Anomaly(row.id, row.category, row.amount, row.timestamp, mean, v, row.amount - mean > 0.0)
  }

  /** `cat_df['amount'].mean()` over one category's rows (0 when there are none). */
  function GroupMean(group: seq<Transaction>): real
  {
    if group == [] then 0.0 else Mean(Amounts(group))
  }

  /** `cat_df['amount'].std()` squared (0 below two rows, where pandas gives NaN). */
  function GroupVariance(group: seq<Transaction>): (v: real)
    ensures v >= 0.0
  {
    if |group| < 2 then 0.0 else SampleVariance(Amounts(group))
  }

  /** A category the finder looks into: three rows or more, and a deviation of at least 0.0001. */
  predicate Examined(group: seq<Transaction>)
  {
    |group| >= MinCategoryRows && GroupVariance(group) >= MinVariance
  }

  /** The rows of `exps` in `row`'s category, `expense_df[expense_df['category'] == category]`. */
  function CategoryRows(row: Transaction, exps: seq<Transaction>): seq<Transaction>
  {
    Select(exps, CategoryOf, row.category)
  }

  /** `row`'s |z| exceeds `t` for mean `mean` and variance `v`. */
  predicate Beyond(row: Transaction, mean: real, v: real, t: real)
  {
    ExceedsSigmas(row.amount - mean, v, t)
  }

  /** `row`'s category is looked into, and `row`'s |z| against that category exceeds `t`. */
  predicate Anomalous(row: Transaction, exps: seq<Transaction>, t: real)
  {
    var g := CategoryRows(row, exps);
    Examined(g) && Beyond(row, GroupMean(g), GroupVariance(g), t)
  }

  /** The record reported for `row`: its own fields with its category's mean and variance. */
  function RecordOf(row: Transaction, exps: seq<Transaction>): Anomaly
  {
    var g := CategoryRows(row, exps);
    AnomalyOf(row, GroupMean(g), GroupVariance(g))
  }

  /** What an anomaly promises: it is the record of an anomalous row of `exps`. */
  predicate Reported(a: Anomaly, exps: seq<Transaction>, t: real)
  {
    exists k :: 0 <= k < |exps| && Anomalous(exps[k], exps, t) && a == RecordOf(exps[k], exps)
  }

  /** The record of one of `rows`, for mean `mean` and variance `v`, whose |z| exceeds `t`. */
  predicate FlaggedRow(a: Anomaly, rows: seq<Transaction>, mean: real, v: real, t: real)
  {
    && a.avgAmount == mean && a.sampleVariance == v
    && exists k :: 0 <= k < |rows| && a == AnomalyOf(rows[k], mean, v) && Beyond(rows[k], mean, v, t)
  }

  /** The rows whose |z| exceeds `t`, in row order: a row's record is there iff its |z| exceeds `t`. */
  function Flagged(rows: seq<Transaction>, mean: real, v: real, t: real): (r: seq<Anomaly>)
    ensures |r| <= |rows|
    ensures forall i :: 0 <= i < |r| ==> FlaggedRow(r[i], rows, mean, v, t)
    ensures forall k :: 0 <= k < |rows| ==>
      (AnomalyOf(rows[k], mean, v) in r <==> Beyond(rows[k], mean, v, t))
  {
    if rows == [] then []
    else
      var init, row := rows[..|rows| - 1], rows[|rows| - 1];
      var before := Flagged(init, mean, v, t);
      var last := if Beyond(row, mean, v, t) then [AnomalyOf(row, mean, v)] else [];
      FlaggedAppend(init, row, before, last, mean, v, t);
      assert init + [row] == rows;
      before + last
  }

  lemma FlaggedAppend(init: seq<Transaction>, row: Transaction, before: seq<Anomaly>, last: seq<Anomaly>,
                      mean: real, v: real, t: real)
    requires forall i :: 0 <= i < |before| ==> FlaggedRow(before[i], init, mean, v, t)
    requires forall k :: 0 <= k < |init| && Beyond(init[k], mean, v, t) ==>
      AnomalyOf(init[k], mean, v) in before
    requires last == if Beyond(row, mean, v, t) then [AnomalyOf(row, mean, v)] else []
    ensures forall i :: 0 <= i < |before + last| ==> FlaggedRow((before + last)[i], init + [row], mean, v, t)
    ensures forall k :: 0 <= k < |init + [row]| ==>
      (AnomalyOf((init + [row])[k], mean, v) in before + last <==> Beyond((init + [row])[k], mean, v, t))
  {
    var rows, r := init + [row], before + last;
    forall i | 0 <= i < |r| ensures FlaggedRow(r[i], rows, mean, v, t) {
      if i < |before| {
        var k :| 0 <= k < |init| && before[i] == AnomalyOf(init[k], mean, v);
        assert rows[k] == init[k];
      } else {
        assert r[i] == AnomalyOf(rows[|init|], mean, v);
      }
    }
    forall k | 0 <= k < |rows|
      ensures AnomalyOf(rows[k], mean, v) in r <==> Beyond(rows[k], mean, v, t)
    {
      var a := AnomalyOf(rows[k], mean, v);
      if a in r {
        var i :| 0 <= i < |r| && r[i] == a;
        var j :| 0 <= j < |rows| && a == AnomalyOf(rows[j], mean, v) && Beyond(rows[j], mean, v, t);
        SameRecordBeyond(rows[k], rows[j], mean, v, t);
      }
      if Beyond(rows[k], mean, v, t) {
        if k < |init| {
          assert rows[k] == init[k];
          assert a in before;
        } else {
          assert a == last[0];
        }
      }
    }
  }

  /** Rows with the same record are beyond `t` together. */
  lemma SameRecordBeyond(x: Transaction, y: Transaction, mean: real, v: real, t: real)
    requires AnomalyOf(x, mean, v) == AnomalyOf(y, mean, v) && Beyond(y, mean, v, t)
    ensures Beyond(x, mean, v, t)
  {
    assert x.amount == y.amount;
  }

  /** The positions of the rows whose |z| exceeds `t`, in increasing order. */
  function FlaggedIndices(rows: seq<Transaction>, mean: real, v: real, t: real): (idx: seq<int>)
    ensures forall i :: 0 <= i < |idx| ==> 0 <= idx[i] < |rows|
    ensures forall i, j :: 0 <= i < j < |idx| ==> idx[i] < idx[j]
    ensures forall k :: 0 <= k < |rows| ==> (k in idx <==> Beyond(rows[k], mean, v, t))
  {
    if rows == [] then []
    else
      var init := rows[..|rows| - 1];
      var before := FlaggedIndices(init, mean, v, t);
      assert forall k :: 0 <= k < |init| ==> rows[k] == init[k];
      before + if Beyond(rows[|rows| - 1], mean, v, t) then [|rows| - 1] else []
  }

  /**
   * One record per row beyond `t`, in row order: the i-th record is the
   * record of the row at the i-th of those positions.
   */
  lemma {:induction false} FlaggedInRowOrder(rows: seq<Transaction>, mean: real, v: real, t: real)
    ensures |Flagged(rows, mean, v, t)| == |FlaggedIndices(rows, mean, v, t)|
    ensures forall i :: 0 <= i < |Flagged(rows, mean, v, t)| ==>
      Flagged(rows, mean, v, t)[i] == AnomalyOf(rows[FlaggedIndices(rows, mean, v, t)[i]], mean, v)
  {
    if rows != [] {
      var init := rows[..|rows| - 1];
      FlaggedInRowOrder(init, mean, v, t);
      var r, idx := Flagged(rows, mean, v, t), FlaggedIndices(rows, mean, v, t);
      var r0, idx0 := Flagged(init, mean, v, t), FlaggedIndices(init, mean, v, t);
      assert r[..|r0|] == r0 && idx[..|idx0|] == idx0;
      forall i | 0 <= i < |r| ensures r[i] == AnomalyOf(rows[idx[i]], mean, v) {
        if i < |r0| {
          assert r[i] == r0[i] && idx[i] == idx0[i];
          assert rows[idx0[i]] == init[idx0[i]];
        }
      }
    }
  }

  /**
   * One category's anomalies: none for fewer than 3 rows or a near-zero
   * spread; otherwise exactly the rows beyond `t` against the category's
   * own mean and sample deviation.
   */
  function GroupAnomalies(group: seq<Transaction>, t: real): (r: seq<Anomaly>)
    ensures !Examined(group) ==> r == []
    ensures forall i :: 0 <= i < |r| ==> FlaggedRow(r[i], group, GroupMean(group), GroupVariance(group), t)
    ensures Examined(group) ==> forall k :: 0 <= k < |group| ==>
      (AnomalyOf(group[k], GroupMean(group), GroupVariance(group)) in r <==>
       Beyond(group[k], GroupMean(group), GroupVariance(group), t))
  {
    if |group| < MinCategoryRows then []
    else
      var xs := Amounts(group);
      var v := SampleVariance(xs);
      if v < MinVariance then [] else Flagged(group, Mean(xs), v, t)
  }

  /** Every anomaly of category `c` is reported for `exps`, with category `c`. */
  lemma CategoryFoundReported(exps: seq<Transaction>, c: Category, found: seq<Anomaly>, t: real)
    requires found == GroupAnomalies(Select(exps, CategoryOf, c), t)
    ensures forall i :: 0 <= i < |found| ==> Reported(found[i], exps, t) && found[i].category == c
  {
    var group := Select(exps, CategoryOf, c);
    var m, v := GroupMean(group), GroupVariance(group);
    forall i | 0 <= i < |found| ensures Reported(found[i], exps, t) && found[i].category == c {
      assert Examined(group);
      assert FlaggedRow(found[i], group, m, v, t);
      var j :| 0 <= j < |group| && found[i] == AnomalyOf(group[j], m, v);
      var row := group[j];
      assert row in group;
      assert row in exps && row.category == c;
      var k :| 0 <= k < |exps| && exps[k] == row;
      assert CategoryRows(row, exps) == group;
      assert Beyond(row, m, v, t);
      assert Anomalous(row, exps, t);
      assert found[i] == RecordOf(row, exps);
    }
  }

  /** Every anomalous row of category `c` has its record among the anomalies of `c`. */
  lemma CategoryFoundComplete(exps: seq<Transaction>, c: Category, found: seq<Anomaly>, t: real)
    requires found == GroupAnomalies(Select(exps, CategoryOf, c), t)
    ensures forall k :: 0 <= k < |exps| && exps[k].category == c && Anomalous(exps[k], exps, t) ==>
      RecordOf(exps[k], exps) in found
  {
    var group := Select(exps, CategoryOf, c);
    var m, v := GroupMean(group), GroupVariance(group);
    forall k | 0 <= k < |exps| && exps[k].category == c && Anomalous(exps[k], exps, t)
      ensures RecordOf(exps[k], exps) in found
    {
      var row := exps[k];
      assert CategoryRows(row, exps) == group;
      assert Examined(group) && Beyond(row, m, v, t);
      SelectComplete(exps, CategoryOf, c);
      assert row in group;
      GroupMember(group, row, t);
    }
  }

  /** A row of an examined category beyond `t` has its record among the category's anomalies. */
  lemma GroupMember(group: seq<Transaction>, row: Transaction, t: real)
    requires row in group && Examined(group)
    requires Beyond(row, GroupMean(group), GroupVariance(group), t)
    ensures AnomalyOf(row, GroupMean(group), GroupVariance(group)) in GroupAnomalies(group, t)
  {
    var j :| 0 <= j < |group| && group[j] == row;
  }

  /** The anomalies of the categories `cats`, category by category. */
  function AnomaliesOver(exps: seq<Transaction>, cats: seq<Category>, t: real): (r: seq<Anomaly>)
    ensures forall i :: 0 <= i < |r| ==> Reported(r[i], exps, t) && r[i].category in cats
    ensures forall k :: 0 <= k < |exps| && exps[k].category in cats && Anomalous(exps[k], exps, t) ==>
      RecordOf(exps[k], exps) in r
  {
    if cats == [] then []
    else
      var c := cats[|cats| - 1];
      var before := AnomaliesOver(exps, cats[..|cats| - 1], t);
      var found := GroupAnomalies(Select(exps, CategoryOf, c), t);
      CategoryFoundReported(exps, c, found, t);
      CategoryFoundComplete(exps, c, found, t);
      OverAppend(exps, cats, before, found, t);
      before + found
  }

  lemma OverAppend(exps: seq<Transaction>, cats: seq<Category>, before: seq<Anomaly>, found: seq<Anomaly>, t: real)
    requires cats != []
    requires forall i :: 0 <= i < |before| ==> Reported(before[i], exps, t) && before[i].category in cats[..|cats| - 1]
    requires forall k :: 0 <= k < |exps| && exps[k].category in cats[..|cats| - 1] && Anomalous(exps[k], exps, t) ==>
      RecordOf(exps[k], exps) in before
    requires forall i :: 0 <= i < |found| ==> Reported(found[i], exps, t) && found[i].category == cats[|cats| - 1]
    requires forall k :: 0 <= k < |exps| && exps[k].category == cats[|cats| - 1] && Anomalous(exps[k], exps, t) ==>
      RecordOf(exps[k], exps) in found
    ensures forall i :: 0 <= i < |before + found| ==> Reported((before + found)[i], exps, t) && (before + found)[i].category in cats
    ensures forall k :: 0 <= k < |exps| && exps[k].category in cats && Anomalous(exps[k], exps, t) ==>
      RecordOf(exps[k], exps) in before + found
  {
    assert cats == cats[..|cats| - 1] + [cats[|cats| - 1]];
    var r := before + found;
    forall i | 0 <= i < |r| ensures Reported(r[i], exps, t) && r[i].category in cats {
      if i < |before| {
        assert r[i] == before[i];
      } else {
        assert r[i] == found[i - |before|];
      }
    }
  }

  /**
   * What `identify_spending_anomalies` returns: nothing below five rows;
   * otherwise every anomalous expense row's record, and nothing else.
   */
  function AnomaliesOf(ts: seq<Transaction>, t: real): (r: seq<Anomaly>)
    ensures |ts| < MinRows ==> r == []
    ensures forall i :: 0 <= i < |r| ==> Reported(r[i], ExpenseRows(ts), t) && r[i].category != Income
    ensures |ts| >= MinRows ==> forall k :: 0 <= k < |ExpenseRows(ts)| && Anomalous(ExpenseRows(ts)[k], ExpenseRows(ts), t) ==>
      RecordOf(ExpenseRows(ts)[k], ExpenseRows(ts)) in r
  {
    if |ts| < MinRows then []
    else
      var exps := ExpenseRows(ts);
      if exps == [] then []
      else
        var r := AnomaliesOver(exps, KeysInOrder(exps, CategoryOf), t);
        ExpenseAnomalies(ts, t, r);
        r
  }

  /** The category loop over the expense rows reports only non-income rows, and every anomalous one. */
  lemma ExpenseAnomalies(ts: seq<Transaction>, t: real, r: seq<Anomaly>)
    requires r == AnomaliesOver(ExpenseRows(ts), KeysInOrder(ExpenseRows(ts), CategoryOf), t)
    ensures forall i :: 0 <= i < |r| ==> Reported(r[i], ExpenseRows(ts), t) && r[i].category != Income
    ensures forall k :: 0 <= k < |ExpenseRows(ts)| && Anomalous(ExpenseRows(ts)[k], ExpenseRows(ts), t) ==>
      RecordOf(ExpenseRows(ts)[k], ExpenseRows(ts)) in r
  {
    var exps := ExpenseRows(ts);
    var cats := KeysInOrder(exps, CategoryOf);
    forall k | 0 <= k < |exps| ensures exps[k].category in cats {
      assert CategoryOf(exps[k]) in KeySet(exps, CategoryOf);
    }
    forall i | 0 <= i < |r| ensures r[i].category != Income {
      var k :| 0 <= k < |exps| && Anomalous(exps[k], exps, t) && r[i] == RecordOf(exps[k], exps);
      assert exps[k] in exps;
    }
  }

  /** Rows with the same record are anomalous together. */
  lemma SameRecordAnomalous(x: Transaction, y: Transaction, exps: seq<Transaction>, t: real)
    requires RecordOf(x, exps) == RecordOf(y, exps) && Anomalous(y, exps, t)
    ensures Anomalous(x, exps, t)
  {
    var g := CategoryRows(x, exps);
    assert x.category == y.category;
    assert CategoryRows(y, exps) == g;
    SameRecordBeyond(x, y, GroupMean(g), GroupVariance(g), t);
  }

  /**
   * With five rows or more, an expense row's record is among the anomalies
   * exactly when the row is anomalous within its category.
   */
  lemma AnomaliesExactly(ts: seq<Transaction>, t: real, row: Transaction)
    requires |ts| >= MinRows && row in ExpenseRows(ts)
    ensures RecordOf(row, ExpenseRows(ts)) in AnomaliesOf(ts, t) <==> Anomalous(row, ExpenseRows(ts), t)
  {
    var exps, r := ExpenseRows(ts), AnomaliesOf(ts, t);
    var a := RecordOf(row, exps);
    if a in r {
      var i :| 0 <= i < |r| && r[i] == a;
      assert Reported(r[i], exps, t);
      var k :| 0 <= k < |exps| && Anomalous(exps[k], exps, t) && a == RecordOf(exps[k], exps);
      SameRecordAnomalous(row, exps[k], exps, t);
    }
    if Anomalous(row, exps, t) {
      var k :| 0 <= k < |exps| && exps[k] == row;
    }
  }

  /** The inner loop: the rows of one category whose |z| exceeds `t`. */
  method FlagRows(group: seq<Transaction>, mean: real, v: real, t: real) returns (found: seq<Anomaly>)
    ensures found == Flagged(group, mean, v, t)
  {
    found := [];
    for j := 0 to |group|
      invariant found == Flagged(group[..j], mean, v, t)
    {
      assert group[..j + 1][..j] == group[..j];
      var row := group[j];
      if Beyond(row, mean, v, t) {
        found := found + [AnomalyOf(row, mean, v)];
      }
    }
    assert group[..|group|] == group;
  }

  /** One category of `identify_spending_anomalies`. */
  method CategoryAnomalies(group: seq<Transaction>, t: real) returns (found: seq<Anomaly>)
    ensures found == GroupAnomalies(group, t)
  {
    if |group| < MinCategoryRows {
      return [];
    }
    var xs := Amounts(group);
    var mean := Mean(xs);
    var v := SampleVariance(xs);
    if v < MinVariance {
      return [];
    }
    found := FlagRows(group, mean, v, t);
  }

  /** `identify_spending_anomalies`: the anomalies of each expense category in order of first appearance. */
  method IdentifySpendingAnomalies(ts: seq<Transaction>, t: real) returns (anomalies: seq<Anomaly>)
    ensures anomalies == AnomaliesOf(ts, t)
  {
    anomalies := [];
    if |ts| < MinRows {
      return;
    }
    var exps := ExpenseRows(ts);
    if exps == [] {
      return;
    }
    anomalies := AnomaliesByCategory(exps, KeysInOrder(exps, CategoryOf), t);
  }

  /** The loop over the expense categories in order of first appearance. */
  method AnomaliesByCategory(exps: seq<Transaction>, cats: seq<Category>, t: real) returns (anomalies: seq<Anomaly>)
    ensures anomalies == AnomaliesOver(exps, cats, t)
  {
    anomalies := [];
    for i := 0 to |cats|
      invariant anomalies == AnomaliesOver(exps, cats[..i], t)
    {
      assert cats[..i + 1][..i] == cats[..i];
      var found := CategoryAnomalies(Select(exps, CategoryOf, cats[i]), t);
      anomalies := anomalies + found;
    }
    assert cats[..|cats|] == cats;
  }

  /** A value beyond `t >= 2` deviations is beyond 2 deviations. */
  lemma ThresholdAtLeastTwo(d: real, v: real, t: real)
    requires t >= 2.0 && v >= 0.0
    requires ExceedsSigmas(d, v, t)
    ensures ExceedsSigmas(d, v, 2.0)
  {
    assert t * t >= 4.0 by {
      assert t * t - 4.0 == (t - 2.0) * (t + 2.0);
    }
    assert t * t * v >= 4.0 * v by {
      assert t * t * v - 4.0 * v == (t * t - 4.0) * v;
    }
  }

  /** No row flagged: every row is within `t` deviations. */
  lemma {:induction false} NothingFlagged(rows: seq<Transaction>, mean: real, v: real, t: real)
    requires forall j :: 0 <= j < |rows| ==> !Beyond(rows[j], mean, v, t)
    ensures Flagged(rows, mean, v, t) == []
  {
    if rows != [] {
      NothingFlagged(rows[..|rows| - 1], mean, v, t);
    }
  }

  /**
   * With the default threshold (or any larger one) a category of three to
   * five rows never yields an anomaly: no value of so small a sample is two
   * sample deviations from its mean.
   */
  lemma SmallCategoryHasNoAnomaly(group: seq<Transaction>, t: real)
    requires MinCategoryRows <= |group| <= 5 && t >= DefaultThreshold
    ensures GroupAnomalies(group, t) == []
  {
    var xs := Amounts(group);
    var v := SampleVariance(xs);
    if v >= MinVariance {
      forall j | 0 <= j < |group| ensures !Beyond(group[j], Mean(xs), v, t) {
        NoTwoSigmaValueInFive(xs, j);
        if ExceedsSigmas(group[j].amount - Mean(xs), v, t) {
          ThresholdAtLeastTwo(group[j].amount - Mean(xs), v, t);
        }
      }
      NothingFlagged(group, Mean(xs), v, t);
    }
  }

  // ---------------------------------------------------------------------
  // Monthly budget

  /** The dictionary `calculate_monthly_budget` returns. */
  datatype MonthlyBudget = MonthlyBudget(
    totalIncome: real,
    targetSavings: real,
    availableBudget: real,
    reductionNeeded: bool,
    reductionFactor: real,
    budgetLimits: map<Category, real>)

  const DefaultSavingsTargetPercent: real := 20.0

  /**
   * The cut applied to every category: 1 unless spending exceeds what is
   * available, and then the factor that brings `expenses` down to it.
   */
  function ReductionFactor(expenses: real, available: real): (f: real)
    ensures f != 1.0 ==> expenses > available && expenses > 0.0 && f * expenses == available
    ensures expenses > available && expenses > 0.0 ==> f * expenses == available
    ensures available >= 0.0 ==> 0.0 <= f <= 1.0
  {
    if expenses > available && expenses > 0.0 then available / expenses else 1.0
  }

  /** Every amount scaled by `f`. */
  function LimitsOf(spending: map<Category, real>, f: real): (l: map<Category, real>)
    ensures l.Keys == spending.Keys
  {
    map c | c in spending :: Scaled(spending[c], f)
  }

  /** One budget limit: the category's spending times the reduction factor. */
  function Scaled(amount: real, f: real): real { amount * f }

  /** What `calculate_monthly_budget` returns for a spending summary. */
  function MonthlyBudgetOf(s: SpendingSummary, savingsTargetPercent: real): (b: MonthlyBudget)
    ensures b.totalIncome == s.totalIncome
    ensures b.targetSavings == s.totalIncome * (savingsTargetPercent / 100.0)
    ensures b.targetSavings + b.availableBudget == b.totalIncome
    ensures b.reductionNeeded <==> s.totalExpenses > b.availableBudget
    ensures b.reductionFactor == ReductionFactor(s.totalExpenses, b.availableBudget)
    ensures b.budgetLimits.Keys == s.categorySpending.Keys
    ensures forall c :: c in b.budgetLimits ==> b.budgetLimits[c] == s.categorySpending[c] * b.reductionFactor
  {
    var target := s.totalIncome * (savingsTargetPercent / 100.0);
    var available := s.totalIncome - target;
    var f := ReductionFactor(s.totalExpenses, available);
    MonthlyBudget(s.totalIncome, target, available, s.totalExpenses > available, f,
                  LimitsOf(s.categorySpending, f))
  }

  /** `calculate_monthly_budget`: the savings target, the factor, then one limit per category. */
  method CalculateMonthlyBudget(s: SpendingSummary, savingsTargetPercent: real) returns (b: MonthlyBudget)
    ensures b == MonthlyBudgetOf(s, savingsTargetPercent)
  {
    var target := s.totalIncome * (savingsTargetPercent / 100.0);
    var available := s.totalIncome - target;
    var f := 1.0;
    if s.totalExpenses > available && s.totalExpenses > 0.0 {
      f := available / s.totalExpenses;
    }
    var limits := ScaleLimits(s.categorySpending, f);
    assert f == ReductionFactor(s.totalExpenses, available);
    b := MonthlyBudget(s.totalIncome, target, available, s.totalExpenses > available, f, limits);
  }

  /** The limits loop: every category's amount times `f`. */
  method ScaleLimits(spending: map<Category, real>, f: real) returns (limits: map<Category, real>)
    ensures limits == LimitsOf(spending, f)
  {
    limits := map[];
    var remaining := spending.Keys;
    while remaining != {}
      invariant remaining <= spending.Keys
      invariant forall c :: c in limits <==> c in spending && c !in remaining
      invariant forall c :: c in limits ==> limits[c] == Scaled(spending[c], f)
      decreases remaining
    {
      var c :| c in remaining;
      limits := limits[c := Scaled(spending[c], f)];
      remaining := remaining - {c};
    }
  }

  /** Scaled by a factor `f` that takes their total `e` to `available`, the amounts total `available`. */
  lemma LimitsTotal(spending: map<Category, real>, f: real, e: real, available: real, ks: seq<Category>)
    requires SumMapOver(spending, ks) == e && f * e == available
    ensures SumMapOver(LimitsOf(spending, f), ks) == available
  {
    SumMapScale(spending, LimitsOf(spending, f), f, ks);
  }

  /**
   * When the cut applies to a summary of transactions, the budget limits
   * add up to exactly the available budget.
   */
  lemma LimitsSumToAvailable(ts: seq<Transaction>, savingsTargetPercent: real)
    requires var s := SpendingOf(ts);
             s.totalExpenses > MonthlyBudgetOf(s, savingsTargetPercent).availableBudget && s.totalExpenses > 0.0
    ensures var b := MonthlyBudgetOf(SpendingOf(ts), savingsTargetPercent);
            SumMapOver(b.budgetLimits, AllCategories) == b.availableBudget
  {
    SpendingAddsUp(ts);
    CutLimitsTotal(SpendingOf(ts), savingsTargetPercent);
  }

  /** For a summary whose category amounts add up to its expenses, a cut brings the limits to the available budget. */
  lemma CutLimitsTotal(s: SpendingSummary, savingsTargetPercent: real)
    requires SumMapOver(s.categorySpending, AllCategories) == s.totalExpenses
    requires s.totalExpenses > MonthlyBudgetOf(s, savingsTargetPercent).availableBudget && s.totalExpenses > 0.0
    ensures var b := MonthlyBudgetOf(s, savingsTargetPercent);
            SumMapOver(b.budgetLimits, AllCategories) == b.availableBudget
  {
    var b := MonthlyBudgetOf(s, savingsTargetPercent);
    LimitsTotal(s.categorySpending, b.reductionFactor, s.totalExpenses, b.availableBudget, AllCategories);
  }
}
