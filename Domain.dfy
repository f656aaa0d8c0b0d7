/**
 * The records the analytics read: the transaction category enumeration
 * and the transaction document (app/models/transaction.py).
 */
module Domain {
  import opened Sums

  datatype Option<T> = None | Some(value: T)

  /** The fourteen values of `TransactionCategory`. */
  datatype Category =
    | Income | Housing | Utilities | Food | Transport | Entertainment | Health
    | Education | Shopping | Personal | Debt | Savings | Investment | Other

  /** The string value each enumeration member carries. */
  function CategoryName(c: Category): string
  {
    match c
    case Income => "income"
    case Housing => "housing"
    case Utilities => "utilities"
    case Food => "food"
    case Transport => "transport"
    case Entertainment => "entertainment"
    case Health => "health"
    case Education => "education"
    case Shopping => "shopping"
    case Personal => "personal"
    case Debt => "debt"
    case Savings => "savings"
    case Investment => "investment"
    case Other => "other"
  }

  /**
   * Every category, ordered by its string value: the order in which a
   * pandas `groupby("category")` yields its groups, and therefore the order
   * of every per-category dictionary built from one.
   */
  const AllCategories: seq<Category> :=
    [Debt, Education, Entertainment, Food, Health, Housing, Income,
     Investment, Other, Personal, Savings, Shopping, Transport, Utilities]

  /** The position of `c` in `AllCategories`. */
  function CategoryIndex(c: Category): (i: nat)
    ensures i < |AllCategories| && AllCategories[i] == c
  {
    match c
    case Debt => 0
    case Education => 1
    case Entertainment => 2
    case Food => 3
    case Health => 4
    case Housing => 5
    case Income => 6
    case Investment => 7
    case Other => 8
    case Personal => 9
    case Savings => 10
    case Shopping => 11
    case Transport => 12
    case Utilities => 13
  }

  /** Listed at position `i`, a category has index `i`. */
  lemma IndexOfListed(i: int)
    requires 0 <= i < |AllCategories|
    ensures CategoryIndex(AllCategories[i]) == i
  {
  }

  /** `AllCategories` lists every category exactly once. */
  lemma AllCategoriesListsEachOnce()
    ensures Distinct(AllCategories)
    ensures forall c: Category :: c in AllCategories
  {
    forall c: Category ensures c in AllCategories {
      assert AllCategories[CategoryIndex(c)] == c;
    }
    forall i, j | 0 <= i < j < |AllCategories| ensures AllCategories[i] != AllCategories[j] {
      IndexOfListed(i);
      IndexOfListed(j);
    }
  }

  /** Distinct members carry distinct string values. */
  lemma CategoryNameInjective(a: Category, b: Category)
    ensures CategoryName(a) == CategoryName(b) ==> a == b
  {
  }

  /**
   * A transaction document. `id` and `userId` are ObjectIds, written as
   * their hexadecimal string form; `timestamp` is in whole seconds since
   * the Unix epoch.
   */
  datatype Transaction = Transaction(
    id: string,
    userId: string,
    amount: real,
    category: Category,
    description: Option<string>,
    timestamp: int,
    isFraudulent: bool)

  function AmountOf(t: Transaction): real { t.amount }

  function CategoryOf(t: Transaction): Category { t.category }

  function TimestampOf(t: Transaction): int { t.timestamp }

  /** The sort key that orders transactions newest first. */
  function NewestFirst(t: Transaction): int { -t.timestamp }

  /** The amount column of `rows`. */
  function Amounts(rows: seq<Transaction>): (xs: seq<real>)
    ensures |xs| == |rows|
    ensures forall i :: 0 <= i < |rows| ==> xs[i] == rows[i].amount
  {
    seq(|rows|, i requires 0 <= i < |rows| => rows[i].amount)
  }

  predicate IsIncome(t: Transaction) { t.category == Income }

  /** Every row whose category is not "income" (the expense side of a split). */
  predicate IsExpense(t: Transaction) { t.category != Income }

  function Abs(x: real): real { if x < 0.0 then -x else x }

  /** The rows whose category is not "income". */
  function ExpenseRows(ts: seq<Transaction>): (r: seq<Transaction>)
    ensures forall t :: t in r <==> t in ts && t.category != Income
  {
    Where(ts, IsExpense)
  }

  /** The categories that occur among the expense rows are the non-income categories that occur. */
  lemma ExpenseKeys(ts: seq<Transaction>)
    ensures forall c :: c in KeySet(ExpenseRows(ts), CategoryOf) <==> c != Income && c in KeySet(ts, CategoryOf)
  {
    var exps := ExpenseRows(ts);
    forall c ensures c in KeySet(exps, CategoryOf) <==> c != Income && c in KeySet(ts, CategoryOf) {
      if c in KeySet(exps, CategoryOf) {
        var i :| 0 <= i < |exps| && exps[i].category == c;
        assert exps[i] in exps;
        var j :| 0 <= j < |ts| && ts[j] == exps[i];
        assert CategoryOf(ts[j]) == c;
      }
      if c != Income && c in KeySet(ts, CategoryOf) {
        var j :| 0 <= j < |ts| && ts[j].category == c;
        assert ts[j] in exps;
        var i :| 0 <= i < |exps| && exps[i] == ts[j];
        assert CategoryOf(exps[i]) == c;
      }
    }
  }

  /** The signed sum of the "income" rows. */
  function IncomeTotal(ts: seq<Transaction>): real
  {
    SumBy(Where(ts, IsIncome), AmountOf)
  }

  /** `if x > 0 then part / x * 100 else 0`: the guarded percentage idiom. */
  function PercentOf(part: real, whole: real): real
  {
    if whole > 0.0 then part / whole * 100.0 else 0.0
  }

  /** `a / e * 100` is `a` scaled by `100 / e`, and that scale takes `e` to 100. */
  lemma PercentScales(a: real, e: real, scale: real)
    requires e > 0.0 && scale == 100.0 / e
    ensures a / e * 100.0 == a * scale
    ensures scale * e == 100.0
  {
  }
}
