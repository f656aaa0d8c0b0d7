/**
 * The transaction endpoints of app/api/routes/transactions.py: the MongoDB
 * query dictionaries they build, the statistics handler, and the
 * ownership rules of get, update and delete over a keyed document store.
 */
module TransactionRoutes {
  import opened Sums
  import opened Domain
  import opened Text
  import opened Ordering

  // ---------------------------------------------------------------------
  // Statistics periods
  // ---------------------------------------------------------------------

  const SecondsPerDay := 86400

  /** The earliest timestamp `period` covers; `None` for "all" or any other string. */
  function PeriodStart(period: string, now: int): (s: Option<int>)
    ensures s.Some? <==> period == "week" || period == "month" || period == "year"
    ensures period == "week" ==> s == Some(now - 7 * SecondsPerDay)
    ensures period == "month" ==> s == Some(now - 30 * SecondsPerDay)
    ensures period == "year" ==> s == Some(now - 365 * SecondsPerDay)
  {
    if period == "week" then Some(now - 7 * SecondsPerDay)
    else if period == "month" then Some(now - 30 * SecondsPerDay)
    else if period == "year" then Some(now - 365 * SecondsPerDay)
    else None
  }

  /** `timestamp >= start`, where no start bounds nothing. */
  predicate InWindow(start: Option<int>, timestamp: int)
  {
    start.None? || timestamp >= start.value
  }

  /**
   * The periods nest: the week lies in the month, the month in the year,
   * and the year in every unbounded period, which covers every timestamp.
   */
  lemma PeriodsNest(now: int, timestamp: int, other: string)
    requires other != "week" && other != "month" && other != "year"
    ensures InWindow(PeriodStart("week", now), timestamp) ==> InWindow(PeriodStart("month", now), timestamp)
    ensures InWindow(PeriodStart("month", now), timestamp) ==> InWindow(PeriodStart("year", now), timestamp)
    ensures InWindow(PeriodStart(other, now), timestamp)
    ensures timestamp <= now ==> (InWindow(PeriodStart("week", now), timestamp) <==> now - timestamp <= 7 * SecondsPerDay)
  {
  }

  // ---------------------------------------------------------------------
  // Query dictionaries
  // ---------------------------------------------------------------------

  /** A value of a query dictionary: a user id, a category, or a dictionary of comparison operators. */
  datatype QueryValue = UserValue(id: string) | CategoryValue(category: Category) | Bounds(ops: map<string, int>)

  /** A MongoDB filter document on the transaction collection. */
  type Query = map<string, QueryValue>

  /** Whether `t` passes the condition `field: v` of a filter. */
  predicate Satisfies(field: string, v: QueryValue, t: Transaction)
  {
    if field == "user_id" then v.UserValue? && t.userId == v.id
    else if field == "category" then v.CategoryValue? && t.category == v.category
    else if field == "timestamp" then
      v.Bounds?
      && ("$gte" in v.ops ==> t.timestamp >= v.ops["$gte"])
      && ("$lte" in v.ops ==> t.timestamp <= v.ops["$lte"])
      && (forall op :: op in v.ops ==> op == "$gte" || op == "$lte")
    else false
  }

  /** A filter selects the documents that pass every one of its conditions. */
  predicate Matches(q: Query, t: Transaction)
  {
    forall field :: field in q ==> Satisfies(field, q[field], t)
  }

  /**
   * The filter of `get_transactions`: a category condition exactly when a
   * category is given, a timestamp condition exactly when a start or an
   * end is given, holding `$gte` and `$lte` exactly for the bounds given.
   * It selects the caller's documents in that category and date range.
   */
  method TransactionsQuery(userId: string, category: Option<Category>, start: Option<int>, end: Option<int>)
    returns (q: Query)
    ensures "user_id" in q && q["user_id"] == UserValue(userId)
    ensures "category" in q <==> category.Some?
    ensures "timestamp" in q <==> start.Some? || end.Some?
    ensures forall field :: field in q ==> field == "user_id" || field == "category" || field == "timestamp"
    ensures "timestamp" in q ==> q["timestamp"].Bounds?
    ensures "timestamp" in q ==> ("$gte" in q["timestamp"].ops <==> start.Some?)
    ensures "timestamp" in q ==> ("$lte" in q["timestamp"].ops <==> end.Some?)
    ensures forall t :: Matches(q, t) <==>
              t.userId == userId && (category.None? || t.category == category.value)
              && InWindow(start, t.timestamp) && (end.None? || t.timestamp <= end.value)
  {
    q := map["user_id" := UserValue(userId)];
    if category.Some? {
      q := q["category" := CategoryValue(category.value)];
    }
    if start.Some? || end.Some? {
      var bounds: map<string, int> := map[];
      if start.Some? {
        bounds := bounds["$gte" := start.value];
      }
      if end.Some? {
        bounds := bounds["$lte" := end.value];
      }
      q := q["timestamp" := Bounds(bounds)];
    }
    forall t ensures Matches(q, t) <==>
              t.userId == userId && (category.None? || t.category == category.value)
              && InWindow(start, t.timestamp) && (end.None? || t.timestamp <= end.value)
    {
      if Matches(q, t) {
        assert Satisfies("user_id", q["user_id"], t);
        if category.Some? {
          assert Satisfies("category", q["category"], t);
        }
        if start.Some? || end.Some? {
          assert Satisfies("timestamp", q["timestamp"], t);
        }
      }
      if t.userId == userId && (category.None? || t.category == category.value)
         && InWindow(start, t.timestamp) && (end.None? || t.timestamp <= end.value)
      {
        forall field | field in q ensures Satisfies(field, q[field], t) {
        }
      }
    }
  }

  /**
   * The filter of `get_transaction_stats`: the caller's documents from the
   * start of `period` on.
   */
  method StatsQuery(userId: string, period: string, now: int) returns (q: Query)
    ensures "timestamp" in q <==> PeriodStart(period, now).Some?
    ensures forall t :: Matches(q, t) <==> t.userId == userId && InWindow(PeriodStart(period, now), t.timestamp)
  {
    var start := PeriodStart(period, now);
    q := map["user_id" := UserValue(userId)];
    if start.Some? {
      q := q["timestamp" := Bounds(map["$gte" := start.value])];
    }
    forall t ensures Matches(q, t) <==> t.userId == userId && InWindow(start, t.timestamp) {
      if Matches(q, t) {
        assert Satisfies("user_id", q["user_id"], t);
        if start.Some? {
          assert Satisfies("timestamp", q["timestamp"], t);
        }
      }
      if t.userId == userId && InWindow(start, t.timestamp) {
        forall field | field in q ensures Satisfies(field, q[field], t) {
        }
      }
    }
  }

  // ---------------------------------------------------------------------
  // Statistics
  // ---------------------------------------------------------------------

  predicate IsInflow(t: Transaction) { t.amount > 0.0 }

  predicate IsOutflow(t: Transaction) { t.amount < 0.0 }

  function Magnitude(t: Transaction): real { Abs(t.amount) }

  /** `total_income`: the sum of the positive amounts, whatever their category. */
  function IncomeOf(rows: seq<Transaction>): real
  {
    SumBy(Where(rows, IsInflow), AmountOf)
  }

  /** `total_expenses`: the magnitude of the sum of the negative amounts, whatever their category. */
  function ExpensesOf(rows: seq<Transaction>): real
  {
    Abs(SumBy(Where(rows, IsOutflow), AmountOf))
  }

  /** One entry of `category_breakdown`. */
  datatype Entry = Entry(amount: real, percentage: real)

  /**
   * The breakdown after the accumulation loop: an entry, created at zero,
   * for each category that has a negative amount, to which the magnitude
   * of each of its negative amounts is added.
   */
  function Accumulated(rows: seq<Transaction>): map<Category, Entry>
  {
    if rows == [] then map[] else Accrue(Accumulated(rows[..|rows| - 1]), rows[|rows| - 1])
  }

  /** One pass of the accumulation loop. */
  function Accrue(b: map<Category, Entry>, t: Transaction): map<Category, Entry>
  {
    if t.amount < 0.0 then
      var e := if t.category in b then b[t.category] else Entry(0.0, 0.0);
      b[t.category := e.(amount := e.amount + Abs(t.amount))]
    else b
  }

  /** The percentage loop: every amount as a fraction of `expenses`, when that is positive. */
  function WithFractions(b: map<Category, Entry>, expenses: real): (r: map<Category, Entry>)
    ensures r.Keys == b.Keys
    ensures forall c :: c in r ==> r[c].amount == b[c].amount
    ensures expenses <= 0.0 ==> r == b
  {
    if expenses > 0.0 then map c | c in b :: b[c].(percentage := b[c].amount / expenses) else b
  }

  /** The dictionary `get_transaction_stats` returns. */
  datatype TransactionStats = TransactionStats(
    totalIncome: real,
    totalExpenses: real,
    netSavings: real,
    savingsRate: real,
    categoryBreakdown: map<Category, Entry>)

  /** The statistics of the documents `rows`. */
  function StatsOf(rows: seq<Transaction>): (st: TransactionStats)
    ensures st.netSavings == st.totalIncome - st.totalExpenses
    ensures st.totalIncome <= 0.0 ==> st.savingsRate == 0.0
  {
    var income := IncomeOf(rows);
    var expenses := ExpensesOf(rows);
    TransactionStats(income, expenses, income - expenses, PercentOf(income - expenses, income),
                     WithFractions(Accumulated(rows), expenses))
  }

  /** Lines 105-147: the two sums, the accumulation loop, then the percentage loop. */
  method ComputeStats(rows: seq<Transaction>) returns (st: TransactionStats)
    ensures st == StatsOf(rows)
  {
    var income := IncomeOf(rows);
    var expenses := ExpensesOf(rows);
    var breakdown := AccumulateOutflows(rows);
    if expenses > 0.0 {
      breakdown := FillFractions(breakdown, expenses);
    }
    var net := income - expenses;
    var rate := if income > 0.0 then net / income * 100.0 else 0.0;
    st := TransactionStats(income, expenses, net, rate, breakdown);
  }

  /** The loop of lines 118-127. */
  method AccumulateOutflows(rows: seq<Transaction>) returns (breakdown: map<Category, Entry>)
    ensures breakdown == Accumulated(rows)
  {
    breakdown := map[];
    for i := 0 to |rows|
      invariant breakdown == Accumulated(rows[..i])
    {
      assert rows[..i + 1][..i] == rows[..i];
      var amount := rows[i].amount;
      if amount < 0.0 {
        var c := rows[i].category;
        if c !in breakdown {
          breakdown := breakdown[c := Entry(0.0, 0.0)];
        }
        breakdown := breakdown[c := breakdown[c].(amount := breakdown[c].amount + Abs(amount))];
      }
    }
    assert rows[..|rows|] == rows;
  }

  /** The loop of lines 132-133. */
  method FillFractions(b: map<Category, Entry>, expenses: real) returns (r: map<Category, Entry>)
    requires expenses > 0.0
    ensures r == WithFractions(b, expenses)
  {
    r := b;
    var remaining := b.Keys;
    while remaining != {}
      invariant remaining <= b.Keys && r.Keys == b.Keys
      invariant forall c :: c in r ==> r[c] == if c in remaining then b[c] else b[c].(percentage := b[c].amount / expenses)
      decreases remaining
    {
      var c :| c in remaining;
      r := r[c := r[c].(percentage := r[c].amount / expenses)];
      remaining := remaining - {c};
    }
  }

  function AmountsOf(b: map<Category, Entry>): (m: map<Category, real>)
    ensures m.Keys == b.Keys
  {
    map c | c in b :: b[c].amount
  }

  function PercentagesOf(b: map<Category, Entry>): (m: map<Category, real>)
    ensures m.Keys == b.Keys
  {
    map c | c in b :: b[c].percentage
  }

  /** `b` holds, for each category among `outs`, the total of its magnitudes and a zero percentage. */
  ghost predicate GroupsOutflows(b: map<Category, Entry>, outs: seq<Transaction>)
  {
    && b.Keys == KeySet(outs, CategoryOf)
    && forall c :: c in b ==> b[c] == Entry(GroupTotal(outs, Magnitude, CategoryOf, c), 0.0)
  }

  /** What a pass adds to the running outflows. */
  function OutflowOf(t: Transaction): seq<Transaction>
  {
    if t.amount < 0.0 then [t] else []
  }

  /** A negative amount adds its magnitude to its category's entry, starting one if needed. */
  lemma AccrueGroups(b: map<Category, Entry>, outs: seq<Transaction>, t: Transaction)
    requires GroupsOutflows(b, outs)
    ensures GroupsOutflows(Accrue(b, t), outs + OutflowOf(t))
  {
    if t.amount < 0.0 {
      AccrueKeys(b, outs, t);
      AccrueTotals(b, outs, t);
    } else {
      assert outs + OutflowOf(t) == outs;
    }
  }

  lemma AccrueKeys(b: map<Category, Entry>, outs: seq<Transaction>, t: Transaction)
    requires b.Keys == KeySet(outs, CategoryOf)
    requires t.amount < 0.0
    ensures Accrue(b, t).Keys == KeySet(outs + [t], CategoryOf)
  {
    KeySetAppend(outs, t, CategoryOf);
  }

  lemma AccrueTotals(b: map<Category, Entry>, outs: seq<Transaction>, t: Transaction)
    requires GroupsOutflows(b, outs)
    requires t.amount < 0.0
    ensures forall c :: c in Accrue(b, t) ==> Accrue(b, t)[c] == Entry(GroupTotal(outs + [t], Magnitude, CategoryOf, c), 0.0)
  {
    forall c | c in Accrue(b, t)
      ensures Accrue(b, t)[c] == Entry(GroupTotal(outs + [t], Magnitude, CategoryOf, c), 0.0)
    {
      GroupTotalAppend(outs, t, Magnitude, CategoryOf, c);
      if c == t.category && c !in b {
        SelectEmptyIffAbsent(outs, CategoryOf, c);
      }
    }
  }

  /**
   * The accumulation loop groups the negative amounts: its keys are the
   * categories with a negative amount, and each entry holds the sum of
   * that category's magnitudes with a zero percentage.
   */
  lemma {:induction false} AccumulatedGroups(rows: seq<Transaction>)
    ensures Accumulated(rows).Keys == KeySet(Where(rows, IsOutflow), CategoryOf)
    ensures forall c :: c in Accumulated(rows) ==>
              Accumulated(rows)[c] == Entry(GroupTotal(Where(rows, IsOutflow), Magnitude, CategoryOf, c), 0.0)
  {
    AccumulatedGroupsOutflows(rows);
  }

  lemma {:induction false} AccumulatedGroupsOutflows(rows: seq<Transaction>)
    ensures GroupsOutflows(Accumulated(rows), Where(rows, IsOutflow))
  {
    if rows != [] {
      var init, t := rows[..|rows| - 1], rows[|rows| - 1];
      assert rows == init + [t];
      AccumulatedGroupsOutflows(init);
      WhereAppend(init, t, IsOutflow);
      AccrueGroups(Accumulated(init), Where(init, IsOutflow), t);
      assert Where(rows, IsOutflow) == Where(init, IsOutflow) + OutflowOf(t);
    }
  }

  /** The breakdown's categories are exactly those with at least one negative amount. */
  lemma BreakdownCategories(rows: seq<Transaction>, c: Category)
    ensures c in StatsOf(rows).categoryBreakdown <==> exists i :: 0 <= i < |rows| && rows[i].amount < 0.0 && rows[i].category == c
  {
    assert StatsOf(rows).categoryBreakdown.Keys == KeySet(Where(rows, IsOutflow), CategoryOf) by {
      AccumulatedGroupsOutflows(rows);
    }
    OutflowCategory(rows, c);
  }

  /** A category is among the outflows' exactly when some negative amount has it. */
  lemma OutflowCategory(rows: seq<Transaction>, c: Category)
    ensures c in KeySet(Where(rows, IsOutflow), CategoryOf) <==> exists i :: 0 <= i < |rows| && rows[i].amount < 0.0 && rows[i].category == c
  {
    var outs := Where(rows, IsOutflow);
    if c in KeySet(outs, CategoryOf) {
      var k :| 0 <= k < |outs| && outs[k].category == c;
      assert outs[k] in outs;
      var i :| 0 <= i < |rows| && rows[i] == outs[k];
    }
    if exists i :: 0 <= i < |rows| && rows[i].amount < 0.0 && rows[i].category == c {
      var i :| 0 <= i < |rows| && rows[i].amount < 0.0 && rows[i].category == c;
      assert rows[i] in outs;
      var k :| 0 <= k < |outs| && outs[k] == rows[i];
      assert CategoryOf(outs[k]) == c;
    }
  }



  /** The sum of the negative amounts is minus the sum of their magnitudes. */
  lemma OutflowMagnitudes(rows: seq<Transaction>)
    ensures ExpensesOf(rows) == SumBy(Where(rows, IsOutflow), Magnitude)
    ensures ExpensesOf(rows) >= 0.0
  {
    var outs := Where(rows, IsOutflow);
    SumByScale(outs, Magnitude, AmountOf, -1.0);
    SumBySign(outs, Magnitude);
  }

  /**
   * The amounts of the accumulation loop add up to `total_expenses`, and
   * each is the sum of the magnitudes of its category's negative amounts.
   */
  lemma AccumulatedAddsUp(rows: seq<Transaction>)
    ensures AmountsOf(Accumulated(rows)) == GroupMap(Where(rows, IsOutflow), Magnitude, CategoryOf)
    ensures SumMapOver(AmountsOf(Accumulated(rows)), AllCategories) == ExpensesOf(rows)
  {
    var outs := Where(rows, IsOutflow);
    AccumulatedGroups(rows);
    AllCategoriesListsEachOnce();
    assert AmountsOf(Accumulated(rows)) == GroupMap(outs, Magnitude, CategoryOf);
    GroupMapTotal(outs, Magnitude, CategoryOf, AllCategories);
    OutflowMagnitudes(rows);
  }

  /** `x / e` as a named term, so that equal numerators give equal fractions by congruence alone. */
  function Ratio(x: real, e: real): real
    requires e > 0.0
  {
    x / e
  }

  lemma RatioIsScale(x: real, e: real)
    requires e > 0.0
    ensures Ratio(x, e) == x * (1.0 / e)
  {
  }

  /** Amounts that add up to `total`, each scaled by `s`, add up to `s * total`. */
  lemma ScaledSum(a: map<Category, real>, p: map<Category, real>, s: real, total: real, ks: seq<Category>)
    requires p.Keys == a.Keys && SumMapOver(a, ks) == total
    requires forall c :: c in a ==> p[c] == a[c] * s
    ensures SumMapOver(p, ks) == s * total
  {
    SumMapScale(a, p, s, ks);
  }

  /** Amounts that add up to a positive `e`, each divided by `e`, add up to 1. */
  lemma FractionsOfTotal(b: map<Category, Entry>, e: real, ks: seq<Category>)
    requires e > 0.0 && SumMapOver(AmountsOf(b), ks) == e
    ensures SumMapOver(PercentagesOf(WithFractions(b, e)), ks) == 1.0
  {
    var w := WithFractions(b, e);
    var a, p, s := AmountsOf(b), PercentagesOf(w), 1.0 / e;
    forall c | c in a ensures p[c] == a[c] * s {
      assert p[c] == Ratio(b[c].amount, e);
      assert a[c] == b[c].amount;
      assert Ratio(b[c].amount, e) == Ratio(a[c], e);
      RatioIsScale(a[c], e);
    }
    ScaledSum(a, p, s, e, ks);
    InverseScale(s, e);
  }

  lemma InverseScale(s: real, e: real)
    requires e > 0.0 && s == 1.0 / e
    ensures s * e == 1.0
  {
  }

  /**
   * The amounts of the breakdown add up to `total_expenses`, each being
   * the sum of the magnitudes of its category's negative amounts.
   */
  lemma BreakdownAddsUp(rows: seq<Transaction>)
    ensures AmountsOf(StatsOf(rows).categoryBreakdown) == GroupMap(Where(rows, IsOutflow), Magnitude, CategoryOf)
    ensures SumMapOver(AmountsOf(StatsOf(rows).categoryBreakdown), AllCategories) == StatsOf(rows).totalExpenses
  {
    assert StatsOf(rows).categoryBreakdown == WithFractions(Accumulated(rows), ExpensesOf(rows));
    assert AmountsOf(StatsOf(rows).categoryBreakdown) == AmountsOf(Accumulated(rows));
    AccumulatedAddsUp(rows);
  }

  /**
   * The percentages of the breakdown are fractions: they add up to 1 when
   * there are expenses, and all stay 0 otherwise.
   */
  lemma FractionsSumToOne(rows: seq<Transaction>)
    ensures StatsOf(rows).totalExpenses > 0.0 ==>
              SumMapOver(PercentagesOf(StatsOf(rows).categoryBreakdown), AllCategories) == 1.0
    ensures StatsOf(rows).totalExpenses <= 0.0 ==>
              forall c :: c in StatsOf(rows).categoryBreakdown ==> StatsOf(rows).categoryBreakdown[c].percentage == 0.0
  {
    assert StatsOf(rows).categoryBreakdown == WithFractions(Accumulated(rows), ExpensesOf(rows));
    if ExpensesOf(rows) > 0.0 {
      AccumulatedAddsUp(rows);
      FractionsOfTotal(Accumulated(rows), ExpensesOf(rows), AllCategories);
    } else {
      AccumulatedPositive(rows);
    }
  }

  /** The accumulation loop leaves every amount positive and every percentage 0. */
  lemma {:induction false} AccumulatedPositive(rows: seq<Transaction>)
    ensures forall c :: c in Accumulated(rows) ==> Accumulated(rows)[c].amount > 0.0
    ensures forall c :: c in Accumulated(rows) ==> Accumulated(rows)[c].percentage == 0.0
  {
    if rows != [] {
      AccumulatedPositive(rows[..|rows| - 1]);
    }
  }

  /** Net savings is the plain sum of all amounts: the zero amounts count on neither side. */
  lemma NetIsSignedSum(rows: seq<Transaction>)
    ensures IncomeOf(rows) - ExpensesOf(rows) == SumBy(rows, AmountOf)
  {
    SumBySign(Where(rows, IsOutflow), AmountOf);
    SignedParts(rows);
  }

  /** The positive and the negative amounts together add up to the sum of all amounts. */
  lemma {:induction false} SignedParts(rows: seq<Transaction>)
    ensures SumBy(Where(rows, IsInflow), AmountOf) + SumBy(Where(rows, IsOutflow), AmountOf) == SumBy(rows, AmountOf)
  {
    if rows != [] {
      var init, t := rows[..|rows| - 1], rows[|rows| - 1];
      assert rows == init + [t];
      SignedParts(init);
      WhereAppend(init, t, IsInflow);
      WhereAppend(init, t, IsOutflow);
      SumByAppend(Where(init, IsInflow), if t.amount > 0.0 then [t] else [], AmountOf);
      SumByAppend(Where(init, IsOutflow), if t.amount < 0.0 then [t] else [], AmountOf);
      SumBySingle(t, AmountOf);
    }
  }


  // ---------------------------------------------------------------------
  // Documents by id
  // ---------------------------------------------------------------------

  predicate IsHexDigit(c: char)
  {
    IsDigit(c) || 'a' <= c <= 'f' || 'A' <= c <= 'F'
  }

  /**
   * `PydanticObjectId(s)`: a string of 24 hexadecimal digits, written in
   * lower case; anything else is refused.
   */
  function ParseObjectId(s: string): (r: Option<string>)
    ensures r.Some? <==> |s| == 24 && forall i :: 0 <= i < |s| ==> IsHexDigit(s[i])
  {
    if |s| == 24 && forall i :: 0 <= i < |s| ==> IsHexDigit(s[i]) then Some(ToLower(s)) else None
  }

  /**
   * A parsed id is in its canonical form: parsing it again gives it back,
   * and two spellings that differ only in letter case name the same id.
   */
  lemma ObjectIdCanonical(s: string, s2: string)
    requires ParseObjectId(s).Some?
    ensures ParseObjectId(ParseObjectId(s).value) == ParseObjectId(s)
    ensures ToLower(s2) == ToLower(s) ==> ParseObjectId(s2) == ParseObjectId(s)
  {
    var id := ParseObjectId(s).value;
    assert ToLower(id) == id;
    if ToLower(s2) == ToLower(s) {
      assert |s2| == 24;
      forall i | 0 <= i < |s2| ensures IsHexDigit(s2[i]) {
        assert LowerChar(s2[i]) == LowerChar(s[i]);
      }
    }
  }

  /** The fields of a transaction an update may set; `None` for a field left unset. */
  datatype TransactionUpdate = TransactionUpdate(
    amount: Option<real>,
    category: Option<Category>,
    description: Option<Option<string>>,
    timestamp: Option<int>)

  /** `model_dump(exclude_unset=True)` is empty. */
  predicate NoFieldsSet(u: TransactionUpdate)
  {
    u.amount.None? && u.category.None? && u.description.None? && u.timestamp.None?
  }

  /** `{"$set": update_data}` applied to the stored document `t`. */
  function Patched(t: Transaction, u: TransactionUpdate): (r: Transaction)
    ensures r.id == t.id && r.userId == t.userId && r.isFraudulent == t.isFraudulent
  {
    t.(amount := if u.amount.Some? then u.amount.value else t.amount,
       category := if u.category.Some? then u.category.value else t.category,
       description := if u.description.Some? then u.description.value else t.description,
       timestamp := if u.timestamp.Some? then u.timestamp.value else t.timestamp)
  }

  /**
   * An update changes only the fields supplied, sets each of them to the
   * value supplied, changes nothing when none is supplied, and applying it
   * twice is applying it once.
   */
  lemma PatchChangesOnlySupplied(t: Transaction, u: TransactionUpdate)
    ensures Patched(t, u).amount != t.amount ==> u.amount == Some(Patched(t, u).amount)
    ensures Patched(t, u).category != t.category ==> u.category == Some(Patched(t, u).category)
    ensures Patched(t, u).description != t.description ==> u.description == Some(Patched(t, u).description)
    ensures Patched(t, u).timestamp != t.timestamp ==> u.timestamp == Some(Patched(t, u).timestamp)
    ensures u.amount.Some? ==> Patched(t, u).amount == u.amount.value
    ensures u.category.Some? ==> Patched(t, u).category == u.category.value
    ensures u.description.Some? ==> Patched(t, u).description == u.description.value
    ensures u.timestamp.Some? ==> Patched(t, u).timestamp == u.timestamp.value
    ensures NoFieldsSet(u) ==> Patched(t, u) == t
    ensures Patched(Patched(t, u), u) == Patched(t, u)
  {
  }

  /** What a handler answers: a document, a deletion, or an HTTP error. */
  datatype Reply = Found(doc: Transaction) | Deleted | Failure(status: int, detail: string)

  const BadRequest := 400
  const NotFound := 404

  /**
   * The lookup the get, update and delete handlers share: 400 for an id
   * that is not an ObjectId, 404 for one that names no document of the
   * caller, the document otherwise.
   */
  function Lookup(docs: map<string, Transaction>, transactionId: string, userId: string): (r: Reply)
    ensures r.Failure? && r.status == BadRequest <==> ParseObjectId(transactionId).None?
    ensures r.Failure? && r.status == NotFound <==>
              ParseObjectId(transactionId).Some?
              && !(ParseObjectId(transactionId).value in docs && docs[ParseObjectId(transactionId).value].userId == userId)
    ensures r.Found? ==> ParseObjectId(transactionId).Some? && ParseObjectId(transactionId).value in docs
                         && r.doc == docs[ParseObjectId(transactionId).value] && r.doc.userId == userId
    ensures !r.Deleted?
  {
    var id := ParseObjectId(transactionId);
    if id.None? then Failure(BadRequest, "Invalid transaction ID format")
    else if id.value in docs && docs[id.value].userId == userId then Found(docs[id.value])
    else Failure(NotFound, "Transaction not found")
  }

  /** `skip(skip).limit(limit)` on an ordered result. */
  function Page<T>(rows: seq<T>, skip: nat, limit: nat): (r: seq<T>)
    ensures |r| == if |rows| <= skip then 0 else if |rows| - skip < limit then |rows| - skip else limit
    ensures forall i :: 0 <= i < |r| ==> r[i] == rows[skip + i]
  {
    if |rows| <= skip then [] else Take(rows[skip..], limit)
  }

  /** The transaction collection: documents by id. */
  class TransactionStore {
    var docs: map<string, Transaction>

    /** Each document is stored under its own id, which is an ObjectId in canonical form. */
    ghost predicate Valid()
      reads this
    {
      forall id :: id in docs ==> docs[id].id == id && ParseObjectId(id) == Some(id)
    }

    constructor ()
      ensures docs == map[] && Valid()
    {
      docs := map[];
    }

    /** `Transaction.find(q).to_list()`: every document the filter selects, each once, in no particular order. */
    method Find(q: Query) returns (rows: seq<Transaction>)
      requires Valid()
      ensures forall t :: t in rows <==> t in docs.Values && Matches(q, t)
      ensures forall i, j :: 0 <= i < j < |rows| ==> rows[i].id != rows[j].id
    {
      rows := [];
      var remaining := docs.Keys;
      while remaining != {}
        invariant remaining <= docs.Keys
        invariant forall t :: t in rows <==> exists id :: id in docs && id !in remaining && docs[id] == t && Matches(q, t)
        invariant forall t :: t in rows ==> t.id in docs && t.id !in remaining
        invariant forall i, j :: 0 <= i < j < |rows| ==> rows[i].id != rows[j].id
        decreases remaining
      {
        var id :| id in remaining;
        if Matches(q, docs[id]) {
          rows := rows + [docs[id]];
        }
        remaining := remaining - {id};
      }
    }

    /**
     * `get_transactions`: the caller's documents in the given category and
     * date range (`found`), newest first, after skipping `skip` and keeping
     * at most `limit`.
     */
    method GetTransactions(userId: string, limit: nat, skip: nat, category: Option<Category>,
                           start: Option<int>, end: Option<int>)
      returns (found: seq<Transaction>, page: seq<Transaction>)
      requires Valid()
      requires 1 <= limit <= 100
      ensures forall t :: t in found <==>
                t in docs.Values && t.userId == userId && (category.None? || t.category == category.value)
                && InWindow(start, t.timestamp) && (end.None? || t.timestamp <= end.value)
      ensures page == Page(SortBy(found, NewestFirst), skip, limit)
      ensures |page| <= limit
      ensures forall i, j :: 0 <= i < j < |page| ==> page[i].timestamp >= page[j].timestamp
      ensures forall t :: t in page ==> t in found
    {
      var q := TransactionsQuery(userId, category, start, end);
      found := Find(q);
      var sorted := SortBy(found, NewestFirst);
      page := Page(sorted, skip, limit);
      forall t | t in page ensures t in found {
        var i :| 0 <= i < |page| && page[i] == t;
        assert sorted[skip + i] == t;
        assert t in multiset(sorted);
      }
      forall i, j | 0 <= i < j < |page| ensures page[i].timestamp >= page[j].timestamp {
        assert NewestFirst(sorted[skip + i]) <= NewestFirst(sorted[skip + j]);
      }
    }

    /**
     * `create_transaction`, with `newId` the id the database assigns. An
     * omitted timestamp takes the clock reading `now`; the fraud flag
     * starts cleared.
     */
    method CreateTransaction(newId: string, now: int, userId: string, amount: real, category: Category,
                             description: Option<string>, timestamp: Option<int>)
      returns (t: Transaction)
      requires Valid() && ParseObjectId(newId) == Some(newId) && newId !in docs
      modifies this
      ensures Valid()
      ensures t.id == newId && t.userId == userId && t.amount == amount && t.category == category
              && t.description == description && !t.isFraudulent
      ensures t.timestamp == if timestamp.Some? then timestamp.value else now
      ensures docs == old(docs)[newId := t]
    {
      t := Transaction(newId, userId, amount, category, description,
                       if timestamp.Some? then timestamp.value else now, false);
      docs := docs[newId := t];
    }

    /**
     * `get_transaction_stats`: the statistics of the caller's documents
     * in `period` (`found`, in the order the database yields them).
     */
    method GetTransactionStats(userId: string, period: string, now: int)
      returns (found: seq<Transaction>, st: TransactionStats)
      requires Valid()
      ensures forall t :: t in found <==> t in docs.Values && t.userId == userId && InWindow(PeriodStart(period, now), t.timestamp)
      ensures st == StatsOf(found)
    {
      var q := StatsQuery(userId, period, now);
      found := Find(q);
      st := ComputeStats(found);
    }

    /** `get_transaction`. */
    method GetTransaction(transactionId: string, userId: string) returns (r: Reply)
      ensures r == Lookup(docs, transactionId, userId)
    {
      var id := ParseObjectId(transactionId);
      if id.None? {
        return Failure(BadRequest, "Invalid transaction ID format");
      }
      if id.value !in docs || docs[id.value].userId != userId {
        return Failure(NotFound, "Transaction not found");
      }
      r := Found(docs[id.value]);
    }

    /**
     * `update_transaction`: the lookup's error, with nothing changed; or
     * the caller's document with the supplied fields set, which replaces
     * the stored one. With no field supplied nothing is written.
     */
    method UpdateTransaction(transactionId: string, userId: string, u: TransactionUpdate) returns (r: Reply)
      requires Valid()
      modifies this
      ensures Valid()
      ensures Lookup(old(docs), transactionId, userId).Failure? ==>
                r == Lookup(old(docs), transactionId, userId) && docs == old(docs)
      ensures Lookup(old(docs), transactionId, userId).Found? ==>
                r == Found(Patched(Lookup(old(docs), transactionId, userId).doc, u))
                && docs == old(docs)[r.doc.id := r.doc]
      ensures NoFieldsSet(u) ==> docs == old(docs)
    {
      r := GetTransaction(transactionId, userId);
      if r.Failure? {
        return;
      }
      var t := r.doc;
      if !NoFieldsSet(u) {
        docs := docs[t.id := Patched(t, u)];
      }
      PatchChangesOnlySupplied(t, u);
      r := Found(docs[t.id]);
    }

    /** `delete_transaction`: the lookup's error with nothing changed, or the caller's document removed. */
    method DeleteTransaction(transactionId: string, userId: string) returns (r: Reply)
      requires Valid()
      modifies this
      ensures Valid()
      ensures Lookup(old(docs), transactionId, userId).Failure? ==>
                r == Lookup(old(docs), transactionId, userId) && docs == old(docs)
      ensures Lookup(old(docs), transactionId, userId).Found? ==>
                r == Deleted && docs == old(docs) - {ParseObjectId(transactionId).value}
    {
      r := GetTransaction(transactionId, userId);
      if r.Failure? {
        return;
      }
      docs := docs - {r.doc.id};
      r := Deleted;
    }
  }
}
