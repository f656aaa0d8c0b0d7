/**
 * The deterministic part of the fraud detection agent
 * (app/agents/fraud_agent.py): two rules over the transactions in time
 * order, a line-by-line reader for the detections a free-text reply
 * states, the merge of the two lists, and the branching that decides
 * whether a reply is asked for at all. The reply itself is an input.
 */
module FraudAgent {
  import opened Sums
  import opened Domain
  import opened Stats
  import opened Text
  import opened Ordering

  datatype Risk = Low | Medium | High

  datatype DetectionMethod = RuleBased | Llm

  /**
   * The `transaction_id` of a detection. A rule hit carries the row's
   * ObjectId (written as its string form); a hit read from a reply carries
   * the Python `int` parsed from it. An ObjectId never equals an int.
   */
  datatype DetectionId = ObjectRef(oid: string) | Number(n: nat)

  /** The `reason` of a detection: the values the rule texts are formatted from, or the reply's own words. */
  datatype Reason = LargeAmount(amount: real) | QuickSuccession(minutes: real) | Stated(text: string)

  datatype Detection = Detection(transactionId: DetectionId, reason: Reason, risk: Risk, detectedBy: DetectionMethod)

  /** Ten minutes, the rapid-succession window, in seconds. */
  const RapidSeconds := 600

  // ---------------------------------------------------------------------
  // Rule-based detection

  /**
   * `x > mean + 3 * std`, where `std` is the sample standard deviation of
   * `xs` when there are more than five values and `0.5 * mean` otherwise.
   */
  predicate Outlying(x: real, xs: seq<real>)
    requires |xs| > 3
  {
    var m := Mean(xs);
    if |xs| > 5 then AboveSigmas(x - m, SampleVariance(xs), 3.0)
    else x > m + 3.0 * (m * 0.5)
  }

  function OutlierHit(t: Transaction): Detection
  {
    Detection(ObjectRef(t.id), LargeAmount(t.amount), Medium, RuleBased)
  }

  /** The outlier hits among `rows`, in their order; `xs` is the whole amount column. */
  function OutlierHits(rows: seq<Transaction>, xs: seq<real>): (r: seq<Detection>)
    requires |xs| > 3
    ensures forall i :: 0 <= i < |r| ==> r[i].risk == Medium && r[i].detectedBy == RuleBased && r[i].transactionId.ObjectRef?
  {
    if rows == [] then []
    else
      var t := rows[|rows| - 1];
      OutlierHits(rows[..|rows| - 1], xs) + (if Outlying(t.amount, xs) then [OutlierHit(t)] else [])
  }

  /** A hit is exactly the record of a row whose amount is an outlier. */
  lemma {:induction false} OutlierHitsMembers(rows: seq<Transaction>, xs: seq<real>)
    requires |xs| > 3
    ensures forall d :: d in OutlierHits(rows, xs) <==>
              exists k :: 0 <= k < |rows| && Outlying(rows[k].amount, xs) && d == OutlierHit(rows[k])
  {
    if rows != [] {
      var init := rows[..|rows| - 1];
      OutlierHitsMembers(init, xs);
      forall d ensures d in OutlierHits(rows, xs) <==>
                exists k :: 0 <= k < |rows| && Outlying(rows[k].amount, xs) && d == OutlierHit(rows[k])
      {
        if d in OutlierHits(init, xs) {
          var k :| 0 <= k < |init| && Outlying(init[k].amount, xs) && d == OutlierHit(init[k]);
          assert rows[k] == init[k];
        }
        if exists k :: 0 <= k < |rows| && Outlying(rows[k].amount, xs) && d == OutlierHit(rows[k]) {
          var k :| 0 <= k < |rows| && Outlying(rows[k].amount, xs) && d == OutlierHit(rows[k]);
          if k < |init| {
            assert init[k] == rows[k];
          }
        }
      }
    }
  }

  /** No row an outlier, no hit. */
  lemma {:induction false} OutlierHitsNone(rows: seq<Transaction>, xs: seq<real>)
    requires |xs| > 3
    requires forall k :: 0 <= k < |rows| ==> !Outlying(rows[k].amount, xs)
    ensures OutlierHits(rows, xs) == []
  {
    if rows != [] {
      var init := rows[..|rows| - 1];
      assert forall k :: 0 <= k < |init| ==> init[k] == rows[k];
      OutlierHitsNone(init, xs);
    }
  }

  /** Consecutive rows in time order: `0 < (t - prev) < 10 minutes`. */
  predicate IsRapid(prev: Transaction, t: Transaction)
  {
    0 < t.timestamp - prev.timestamp < RapidSeconds
  }

  function RapidHit(prev: Transaction, t: Transaction): Detection
  {
    Detection(ObjectRef(t.id), QuickSuccession((t.timestamp - prev.timestamp) as real / 60.0), Low, RuleBased)
  }

  /** The rapid-succession hits of `rows`, each row compared with the one before it. */
  function RapidHits(rows: seq<Transaction>): (r: seq<Detection>)
    ensures forall i :: 0 <= i < |r| ==> r[i].risk == Low && r[i].detectedBy == RuleBased && r[i].transactionId.ObjectRef?
  {
    if |rows| < 2 then []
    else
      var prev, t := rows[|rows| - 2], rows[|rows| - 1];
      RapidHits(rows[..|rows| - 1]) + (if IsRapid(prev, t) then [RapidHit(prev, t)] else [])
  }

  /** A hit is exactly the record of a row that follows its predecessor within the window. */
  lemma {:induction false} RapidHitsMembers(rows: seq<Transaction>)
    ensures forall d :: d in RapidHits(rows) <==>
              exists k :: 1 <= k < |rows| && IsRapid(rows[k - 1], rows[k]) && d == RapidHit(rows[k - 1], rows[k])
  {
    if |rows| >= 2 {
      var init := rows[..|rows| - 1];
      RapidHitsMembers(init);
      var last := if IsRapid(rows[|rows| - 2], rows[|rows| - 1]) then [RapidHit(rows[|rows| - 2], rows[|rows| - 1])] else [];
      assert RapidHits(rows) == RapidHits(init) + last;
      forall d | d in RapidHits(rows)
        ensures exists k :: 1 <= k < |rows| && IsRapid(rows[k - 1], rows[k]) && d == RapidHit(rows[k - 1], rows[k])
      {
        if d in RapidHits(init) {
          var k :| 1 <= k < |init| && IsRapid(init[k - 1], init[k]) && d == RapidHit(init[k - 1], init[k]);
          assert rows[k - 1] == init[k - 1] && rows[k] == init[k];
        } else {
          assert d in last;
        }
      }
      forall k | 1 <= k < |rows| && IsRapid(rows[k - 1], rows[k]) ensures RapidHit(rows[k - 1], rows[k]) in RapidHits(rows) {
        if k < |init| {
          assert init[k - 1] == rows[k - 1] && init[k] == rows[k];
        }
      }
    }
  }

  /** The transactions sorted by timestamp. */
  function TimeOrder(ts: seq<Transaction>): (rows: seq<Transaction>)
    ensures |rows| == |ts| && multiset(rows) == multiset(ts)
    ensures SortedBy(rows, TimestampOf)
  {
    SortBy(ts, TimestampOf)
  }

  /**
   * What `_rule_based_detection` returns: nothing for fewer than two
   * transactions; otherwise, when there are more than three, the outlier
   * hits followed by the rapid-succession hits, both in time order.
   */
  function RuleHits(ts: seq<Transaction>): (r: seq<Detection>)
    ensures |ts| <= 3 ==> r == []
    ensures forall i :: 0 <= i < |r| ==> r[i].detectedBy == RuleBased && r[i].transactionId.ObjectRef?
  {
    if |ts| < 2 then [] else RowHits(TimeOrder(ts))
  }

  /** The hits of the two passes over rows already in time order; none for three rows or fewer. */
  function RowHits(rows: seq<Transaction>): seq<Detection>
  {
    if |rows| > 3 then OutlierHits(rows, Amounts(rows)) + RapidHits(rows) else []
  }

  /** `_rule_based_detection`: an outlier pass, then a rapid-succession pass, appending to one list. */
  method RuleBasedDetection(ts: seq<Transaction>) returns (suspicious: seq<Detection>)
    ensures suspicious == RuleHits(ts)
  {
    suspicious := [];
    if |ts| < 2 {
      return;
    }
    var rows := TimeOrder(ts);
    suspicious := RowPasses(rows);
  }

  /** The two passes over the rows in time order, each run only for more than three rows. */
  method RowPasses(rows: seq<Transaction>) returns (suspicious: seq<Detection>)
    ensures suspicious == RowHits(rows)
  {
    suspicious := [];
    if |rows| > 3 {
      suspicious := OutlierPass(suspicious, rows, Amounts(rows));
    }
    if |rows| > 3 {
      suspicious := RapidPass(suspicious, rows);
    }
  }

  /** The outlier loop: appends the record of each row whose amount is above the threshold. */
  method OutlierPass(suspicious: seq<Detection>, rows: seq<Transaction>, amounts: seq<real>) returns (r: seq<Detection>)
    requires |amounts| > 3
    ensures r == suspicious + OutlierHits(rows, amounts)
  {
    r := suspicious;
    for k := 0 to |rows|
      invariant r == suspicious + OutlierHits(rows[..k], amounts)
    {
      OutlierHitsStep(rows, k, amounts);
      if Outlying(rows[k].amount, amounts) {
        r := r + [OutlierHit(rows[k])];
      }
    }
    assert rows[..|rows|] == rows;
  }

  /** One more row adds its record exactly when its amount is an outlier. */
  lemma OutlierHitsStep(rows: seq<Transaction>, k: nat, xs: seq<real>)
    requires k < |rows| && |xs| > 3
    ensures OutlierHits(rows[..k + 1], xs)
            == OutlierHits(rows[..k], xs) + (if Outlying(rows[k].amount, xs) then [OutlierHit(rows[k])] else [])
  {
    assert rows[..k + 1][..k] == rows[..k];
  }

  /** The rapid-succession loop: appends the record of each row that closely follows the one before. */
  method RapidPass(suspicious: seq<Detection>, rows: seq<Transaction>) returns (r: seq<Detection>)
    ensures r == suspicious + RapidHits(rows)
  {
    r := suspicious;
    if |rows| < 2 {
      return;
    }
    for k := 1 to |rows|
      invariant r == suspicious + RapidHits(rows[..k])
    {
      assert rows[..k + 1][..k] == rows[..k];
      if IsRapid(rows[k - 1], rows[k]) {
        r := r + [RapidHit(rows[k - 1], rows[k])];
      }
    }
    assert rows[..|rows|] == rows;
  }

  /** The sum of the amount column is the sum of the amounts. */
  lemma {:induction false} SumOfAmounts(rows: seq<Transaction>)
    ensures Sum(Amounts(rows)) == SumBy(rows, AmountOf)
  {
    if rows != [] {
      var init := rows[..|rows| - 1];
      SumOfAmounts(init);
      assert Amounts(rows)[..|rows| - 1] == Amounts(init);
    }
  }

  /** Sorting by time leaves the mean amount unchanged. */
  lemma TimeOrderKeepsMean(ts: seq<Transaction>)
    requires |ts| > 0
    ensures Mean(Amounts(TimeOrder(ts))) == Mean(Amounts(ts))
  {
    SumOfAmounts(ts);
    SumOfAmounts(TimeOrder(ts));
    SumByPermutation(TimeOrder(ts), ts, AmountOf);
  }

  /**
   * With four or five transactions the stand-in deviation `0.5 * mean`
   * makes the threshold `2.5 * mean`: a transaction's outlier record is
   * reported exactly when its amount exceeds two and a half times the mean.
   */
  lemma SmallSampleThreshold(ts: seq<Transaction>)
    requires 4 <= |ts| <= 5
    ensures forall t :: t in ts ==> (OutlierHit(t) in RuleHits(ts) <==> t.amount > 2.5 * Mean(Amounts(ts)))
  {
    var rows := TimeOrder(ts);
    var xs := Amounts(rows);
    TimeOrderKeepsMean(ts);
    var m := Mean(xs);
    var hits := OutlierHits(rows, xs);
    assert RuleHits(ts) == hits + RapidHits(rows);
    assert forall t :: OutlierHit(t) !in RapidHits(rows);
    forall t | t in ts ensures OutlierHit(t) in hits <==> t.amount > 2.5 * m {
      assert t in multiset(ts);
      assert t in rows by { assert t in multiset(rows); }
      SmallSampleHit(rows, xs, t);
    }
  }

  /** For a row among `rows`, its record is a hit exactly when its amount exceeds 2.5 times the mean. */
  lemma SmallSampleHit(rows: seq<Transaction>, xs: seq<real>, t: Transaction)
    requires 4 <= |xs| <= 5 && t in rows
    ensures OutlierHit(t) in OutlierHits(rows, xs) <==> t.amount > 2.5 * Mean(xs)
  {
    OutlierHitsMembers(rows, xs);
    SmallOutlying(t.amount, xs);
    if OutlierHit(t) in OutlierHits(rows, xs) {
      var k :| 0 <= k < |rows| && Outlying(rows[k].amount, xs) && OutlierHit(t) == OutlierHit(rows[k]);
      assert t.amount == rows[k].amount;
    }
    if t.amount > 2.5 * Mean(xs) {
      var k :| 0 <= k < |rows| && rows[k] == t;
      assert Outlying(rows[k].amount, xs);
    }
  }

  /** Below six values the outlier test is `x > 2.5 * mean`. */
  lemma SmallOutlying(x: real, xs: seq<real>)
    requires 4 <= |xs| <= 5
    ensures Outlying(x, xs) <==> x > 2.5 * Mean(xs)
  {
  }

  /**
   * With six to ten transactions the outlier pass can flag nothing: no
   * value of so small a sample lies more than three sample standard
   * deviations above the mean. Only rapid-succession hits remain.
   */
  lemma NoOutliersUpToTen(ts: seq<Transaction>)
    requires 6 <= |ts| <= 10
    ensures RuleHits(ts) == RapidHits(TimeOrder(ts))
  {
    var rows := TimeOrder(ts);
    var xs := Amounts(rows);
    forall k | 0 <= k < |rows| ensures !Outlying(rows[k].amount, xs) {
      NoThreeSigmaValueInTen(xs, k);
    }
    OutlierHitsNone(rows, xs);
    assert RuleHits(ts) == [] + RapidHits(rows);
  }

  /**
   * The earliest transaction is never reported as rapid: when no later
   * row shares its id, no rapid hit carries that id.
   */
  lemma EarliestNeverRapid(ts: seq<Transaction>)
    requires |ts| > 0
    requires var rows := TimeOrder(ts); forall k :: 1 <= k < |rows| ==> rows[k].id != rows[0].id
    ensures forall d :: d in RapidHits(TimeOrder(ts)) ==> d.transactionId != ObjectRef(TimeOrder(ts)[0].id)
  {
    RapidHitsMembers(TimeOrder(ts));
  }

  /** Outlier hits (risk Medium) all come before rapid hits (risk Low). */
  lemma OutliersBeforeRapid(ts: seq<Transaction>)
    ensures var r := RuleHits(ts);
            forall i, j :: 0 <= i < j < |r| && r[i].risk == Low ==> r[j].risk == Low
  {
    if |ts| > 3 {
      var rows := TimeOrder(ts);
      var o, q := OutlierHits(rows, Amounts(rows)), RapidHits(rows);
      var r := o + q;
      forall i, j | 0 <= i < j < |r| && r[i].risk == Low ensures r[j].risk == Low {
        assert r[j] == q[j - |o|];
      }
    }
  }

  // ---------------------------------------------------------------------
  // Reading detections from a reply

  /** The parser's loop state: the open entry (id, reason, risk) and the entries closed so far. */
  datatype Scan = Scan(currentId: Option<nat>, reason: string, risk: Risk, found: seq<Detection>)

  /** A line that opens an entry: it mentions "transaction" and "id" (in any case) and holds a digit. */
  predicate OpensEntry(line: string)
  {
    var low := ToLower(line);
    Contains(low, "transaction") && Contains(low, "id") && HasDigit(line)
  }

  /** `int(w)` of the first word of `words` that is all digits, if any. */
  function FirstNumber(words: seq<string>): Option<nat>
  {
    if words == [] then None
    else if IsDigitWord(words[0]) then Some(DecimalValue(words[0]))
    else FirstNumber(words[1..])
  }

  /** `FirstNumber` finds a number exactly when some word is all digits, and then the first such word. */
  lemma {:induction false} FirstNumberIsFirst(words: seq<string>)
    ensures var r := FirstNumber(words);
            (r.None? <==> forall k :: 0 <= k < |words| ==> !IsDigitWord(words[k]))
            && (r.Some? ==> exists k :: 0 <= k < |words| && IsDigitWord(words[k]) && r.value == DecimalValue(words[k])
                                        && forall j :: 0 <= j < k ==> !IsDigitWord(words[j]))
  {
    if words != [] && !IsDigitWord(words[0]) {
      var rest := words[1..];
      FirstNumberIsFirst(rest);
      assert forall j :: 0 < j < |words| ==> words[j] == rest[j - 1];
      var r := FirstNumber(rest);
      if r.Some? {
        var k :| 0 <= k < |rest| && IsDigitWord(rest[k]) && r.value == DecimalValue(rest[k])
                 && forall j :: 0 <= j < k ==> !IsDigitWord(rest[j]);
        assert IsDigitWord(words[k + 1]) && r.value == DecimalValue(words[k + 1]);
        assert forall j :: 0 <= j < k + 1 ==> !IsDigitWord(words[j]);
      }
    }
  }

  /** The word loop inside an opening line: the first all-digit word, converted, then `break`. */
  method ReadNumber(line: string) returns (n: Option<nat>)
    ensures n == FirstNumber(Words(line))
  {
    var words := Words(line);
    n := None;
    var i := 0;
    while i < |words|
      invariant 0 <= i <= |words|
      invariant FirstNumber(words) == FirstNumber(words[i..])
      decreases |words| - i
    {
      assert words[i..] == [words[i]] + words[i + 1..];
      if IsDigitWord(words[i]) {
        n := Some(DecimalValue(words[i]));
        return;
      }
      i := i + 1;
    }
  }

  /** The risk level a "risk" line names: "high" before "medium" before "low"; none if it names none. */
  function RiskNamed(low: string): Option<Risk>
  {
    if Contains(low, "high") then Some(High)
    else if Contains(low, "medium") then Some(Medium)
    else if Contains(low, "low") then Some(Low)
    else None
  }

  /** The entry the open state closes into. */
  function Entry(st: Scan): Detection
    requires st.currentId.Some?
  {
    Detection(Number(st.currentId.value), Stated(Strip(st.reason)), st.risk, Llm)
  }

  /** The closed entries plus the open one, if any. */
  function Flush(st: Scan): seq<Detection>
  {
    if st.currentId.Some? then st.found + [Entry(st)] else st.found
  }

  /** What one line of the reply is to the parser, once stripped. */
  datatype LineKind =
    | Opening(next: Option<nat>)    // opens an entry; the number it names, if any
    | RiskLine(level: Option<Risk>) // mentions "risk"; the level it names, if any
    | Plain(line: string)           // anything else: more of the open entry's reason

  /** The branch the loop body takes on a line, decided by the stripped line alone. */
  function Classify(raw: string): LineKind
  {
    var line := Strip(raw);
    var low := ToLower(line);
    if OpensEntry(line) then Opening(FirstNumber(Words(line)))
    else if Contains(low, "risk") then RiskLine(RiskNamed(low))
    else Plain(line)
  }

  /** The three branches of the classification, spelt out. */
  lemma ClassifyCases(raw: string)
    ensures var line := Strip(raw);
            var low := ToLower(line);
            && (OpensEntry(line) ==> Classify(raw) == Opening(FirstNumber(Words(line))))
            && (!OpensEntry(line) && Contains(low, "risk") ==> Classify(raw) == RiskLine(RiskNamed(low)))
            && (!OpensEntry(line) && !Contains(low, "risk") ==> Classify(raw) == Plain(line))
  {
  }

  /** The effect of a classified line on the state. */
  function Apply(st: Scan, kind: LineKind): Scan
  {
    match kind
    case Opening(next) => Scan(if next.Some? then next else st.currentId, "", Medium, Flush(st))
    case RiskLine(level) => Scan(st.currentId, st.reason, if level.Some? then level.value else st.risk, st.found)
    case Plain(line) => if st.currentId.Some? then Scan(st.currentId, st.reason + " " + line, st.risk, st.found) else st
  }

  /** One line of the reply applied to the state. */
  function Step(st: Scan, raw: string): Scan
  {
    Apply(st, Classify(raw))
  }

  /** A reason as stored: no white space at either end. */
  predicate Trimmed(s: string)
  {
    s != [] ==> !IsSpace(s[0]) && !IsSpace(s[|s| - 1])
  }

  /** An entry as the parser produces it: an int id, a trimmed reason, method "llm". */
  predicate ParsedEntry(d: Detection)
  {
    d.detectedBy == Llm && d.transactionId.Number? && d.reason.Stated? && Trimmed(d.reason.text)
  }

  /** Closing the open entry keeps every entry well formed. */
  lemma FlushParsed(st: Scan)
    requires AllParsed(st.found)
    ensures AllParsed(Flush(st))
  {
    if st.currentId.Some? {
      EntryParsed(st);
      AppendParsed(st.found, Entry(st));
    }
  }

  /** A line only ever closes well-formed entries. */
  lemma ApplyParsed(st: Scan, kind: LineKind)
    requires AllParsed(st.found)
    ensures AllParsed(Apply(st, kind).found)
  {
    if kind.Opening? {
      FlushParsed(st);
    }
  }

  /** The open entry closes into a well-formed entry. */
  lemma EntryParsed(st: Scan)
    requires st.currentId.Some?
    ensures ParsedEntry(Entry(st))
  {
  }

  lemma AppendParsed(ds: seq<Detection>, d: Detection)
    requires AllParsed(ds) && ParsedEntry(d)
    ensures AllParsed(ds + [d])
  {
    var r := ds + [d];
    forall i | 0 <= i < |r| ensures ParsedEntry(r[i]) {
      if i < |ds| {
        assert r[i] == ds[i];
      }
    }
  }

  /**
   * A line either keeps the open id or replaces it by the number it
   * names; it either keeps the closed entries or appends the open one.
   */
  lemma ApplyIds(st: Scan, kind: LineKind)
    ensures var next := Apply(st, kind);
            (next.currentId == st.currentId || (kind.Opening? && next.currentId == kind.next))
            && (next.found == st.found || (st.currentId.Some? && next.found == st.found + [Entry(st)]))
  {
  }

  /** The classification of each line, in order. */
  function Kinds(lines: seq<string>): seq<LineKind>
  {
    seq(|lines|, k requires 0 <= k < |lines| => Classify(lines[k]))
  }

  /** The state after the first `m` classified lines, starting from no open entry and risk Medium. */
  function Run(kinds: seq<LineKind>, m: int): Scan
    requires 0 <= m <= |kinds|
  {
    if m == 0 then Scan(None, "", Medium, [])
    else Apply(Run(kinds, m - 1), kinds[m - 1])
  }

  predicate AllParsed(ds: seq<Detection>)
  {
    forall i :: 0 <= i < |ds| ==> ParsedEntry(ds[i])
  }

  /** Every entry the parser closes is well formed. */
  lemma {:induction false} RunEntries(kinds: seq<LineKind>, m: int)
    requires 0 <= m <= |kinds|
    ensures AllParsed(Run(kinds, m).found)
  {
    if m > 0 {
      RunEntries(kinds, m - 1);
      ApplyParsed(Run(kinds, m - 1), kinds[m - 1]);
    }
  }

  /** The state after all the lines. */
  function ScanLines(lines: seq<string>): Scan
  {
    Run(Kinds(lines), |lines|)
  }

  /** The entries classified lines yield: those of the finished scan, the open one closed last. */
  function ParsedKinds(kinds: seq<LineKind>): (r: seq<Detection>)
    ensures AllParsed(r)
  {
    var st := Run(kinds, |kinds|);
    RunEntries(kinds, |kinds|);
    FlushParsed(st);
    Flush(st)
  }

  /** What `_process_llm_response` returns for `response`. */
  function ParsedHits(response: string): (r: seq<Detection>)
    ensures AllParsed(r)
  {
    if Contains(ToLower(response), "no suspicious transactions") then []
    else ParsedKinds(Kinds(Split(response, '\n')))
  }

  /** `_process_llm_response`: one pass over the lines with the open entry kept in variables. */
  method ProcessLlmResponse(response: string) returns (suspicious: seq<Detection>)
    ensures suspicious == ParsedHits(response)
  {
    suspicious := [];
    if Contains(ToLower(response), "no suspicious transactions") {
      return;
    }
    var lines := Split(response, '\n');
    var currentId: Option<nat> := None;
    var currentReason := "";
    var currentRisk := Medium;
    for i := 0 to |lines|
      invariant Scan(currentId, currentReason, currentRisk, suspicious) == Run(Kinds(lines), i)
    {
      currentId, currentReason, currentRisk, suspicious := ReadLine(currentId, currentReason, currentRisk, suspicious, lines[i]);
    }
    if currentId.Some? {
      suspicious := suspicious + [Detection(Number(currentId.value), Stated(Strip(currentReason)), currentRisk, Llm)];
    }
  }

  /** One iteration of the line loop: open a new entry, set the risk, or extend the reason. */
  method ReadLine(currentId: Option<nat>, currentReason: string, currentRisk: Risk, suspicious: seq<Detection>, raw: string)
    returns (id': Option<nat>, reason': string, risk': Risk, found': seq<Detection>)
    ensures Scan(id', reason', risk', found') == Step(Scan(currentId, currentReason, currentRisk, suspicious), raw)
  {
    var line := Strip(raw);
    var low := ToLower(line);
    if Contains(low, "transaction") && Contains(low, "id") && HasDigit(line) {
      id', reason', risk', found' := OpenEntry(currentId, currentReason, currentRisk, suspicious, line);
    } else if Contains(low, "risk") {
      id', reason', found' := currentId, currentReason, suspicious;
      risk' := SetRisk(currentRisk, low);
    } else {
      id', risk', found' := currentId, currentRisk, suspicious;
      reason' := currentReason;
      if currentId.Some? {
        reason' := currentReason + " " + line;
      }
    }
    ClassifyCases(raw);
  }

  /** An opening line: close the open entry, if any, and start a new one with the number the line names. */
  method OpenEntry(currentId: Option<nat>, currentReason: string, currentRisk: Risk, suspicious: seq<Detection>, line: string)
    returns (id': Option<nat>, reason': string, risk': Risk, found': seq<Detection>)
    ensures Scan(id', reason', risk', found')
            == Apply(Scan(currentId, currentReason, currentRisk, suspicious), Opening(FirstNumber(Words(line))))
  {
    id', found' := currentId, suspicious;
    if currentId.Some? {
      found' := suspicious + [Detection(Number(currentId.value), Stated(Strip(currentReason)), currentRisk, Llm)];
    }
    var n := ReadNumber(line);
    if n.Some? {
      id' := n;
    }
    reason' := "";
    risk' := Medium;
  }

  /** A risk line: the level it names, checked "high" first, or the old level. */
  method SetRisk(currentRisk: Risk, low: string) returns (risk': Risk)
    ensures risk' == if RiskNamed(low).Some? then RiskNamed(low).value else currentRisk
  {
    risk' := currentRisk;
    if Contains(low, "high") {
      risk' := High;
    } else if Contains(low, "medium") {
      risk' := Medium;
    } else if Contains(low, "low") {
      risk' := Low;
    }
  }

  /** The line opens an entry and names `n` as its first all-digit word. */
  predicate NamesNumber(raw: string, n: nat)
  {
    OpensEntry(Strip(raw)) && FirstNumber(Words(Strip(raw))) == Some(n)
  }

  /** Line `k` opens an entry and names `n`. */
  predicate NamesAt(lines: seq<string>, k: int, n: nat)
  {
    0 <= k < |lines| && NamesNumber(lines[k], n)
  }

  /** A line names `n` exactly when it is classified as an opening that names `n`. */
  lemma ClassifyNames(raw: string, n: nat)
    ensures NamesNumber(raw, n) <==> Classify(raw) == Opening(Some(n))
  {
  }

  /** `id` is a number that one of the first `m` classified lines opens an entry with. */
  ghost predicate OpenedBefore(kinds: seq<LineKind>, m: int, id: DetectionId)
  {
    id.Number? && exists k :: 0 <= k < m && k < |kinds| && kinds[k] == Opening(Some(id.n))
  }

  /** `id` is a number that an opening line of `lines` names. */
  ghost predicate NamedId(lines: seq<string>, id: DetectionId)
  {
    id.Number? && exists k :: NamesAt(lines, k, id.n)
  }

  /** An id opened by a classified line of `lines` is named by that line. */
  lemma OpenedIsNamed(lines: seq<string>, id: DetectionId)
    requires OpenedBefore(Kinds(lines), |lines|, id)
    ensures NamedId(lines, id)
  {
    var k :| 0 <= k < |lines| && Kinds(lines)[k] == Opening(Some(id.n));
    ClassifyNames(lines[k], id.n);
    assert NamesAt(lines, k, id.n);
  }

  /** The open id after `m` lines, if any, was opened by one of them. */
  lemma {:induction false} OpenIdNamed(kinds: seq<LineKind>, m: int)
    requires 0 <= m <= |kinds|
    ensures var st := Run(kinds, m);
            st.currentId.Some? ==> OpenedBefore(kinds, m, Number(st.currentId.value))
  {
    if m > 0 {
      var before := Run(kinds, m - 1);
      var st := Run(kinds, m);
      ApplyIds(before, kinds[m - 1]);
      if st.currentId.Some? {
        if st.currentId == before.currentId {
          OpenIdNamed(kinds, m - 1);
        } else {
          assert kinds[m - 1] == Opening(Some(st.currentId.value));
        }
      }
    }
  }

  /** Every entry of `ds` carries a number one of the first `m` classified lines opened. */
  ghost predicate AllOpened(kinds: seq<LineKind>, m: int, ds: seq<Detection>)
  {
    forall i :: 0 <= i < |ds| ==> OpenedBefore(kinds, m, ds[i].transactionId)
  }

  /** One step keeps every closed entry's number opened, given that the entries before it and the open one were. */
  lemma IdsCarried(kinds: seq<LineKind>, m: int, before: Scan, next: Scan)
    requires AllOpened(kinds, m, before.found)
    requires before.currentId.Some? ==> OpenedBefore(kinds, m, Number(before.currentId.value))
    requires next.found == before.found || (before.currentId.Some? && next.found == before.found + [Entry(before)])
    ensures AllOpened(kinds, m + 1, next.found)
  {
    forall i | 0 <= i < |next.found| ensures OpenedBefore(kinds, m + 1, next.found[i].transactionId) {
      var id := if i < |before.found| then before.found[i].transactionId else Number(before.currentId.value);
      assert next.found[i].transactionId == id;
      var k :| 0 <= k < m && k < |kinds| && kinds[k] == Opening(Some(id.n));
      assert 0 <= k < m + 1;
    }
  }

  /** Every entry closed within the first `m` lines carries a number one of them opened. */
  lemma {:induction false} ScanIdsNamed(kinds: seq<LineKind>, m: int)
    requires 0 <= m <= |kinds|
    ensures AllOpened(kinds, m, Run(kinds, m).found)
  {
    if m > 0 {
      var before := Run(kinds, m - 1);
      ApplyIds(before, kinds[m - 1]);
      ScanIdsNamed(kinds, m - 1);
      OpenIdNamed(kinds, m - 1);
      IdsCarried(kinds, m - 1, before, Run(kinds, m));
    }
  }

  /** Every entry classified lines yield carries a number one of them opened. */
  lemma KindsIdsOpened(kinds: seq<LineKind>)
    ensures var r := ParsedKinds(kinds);
            forall i :: 0 <= i < |r| ==> OpenedBefore(kinds, |kinds|, r[i].transactionId)
  {
    var st := Run(kinds, |kinds|);
    ScanIdsNamed(kinds, |kinds|);
    OpenIdNamed(kinds, |kinds|);
    var r := ParsedKinds(kinds);
    assert r == Flush(st);
    forall i | 0 <= i < |r| ensures OpenedBefore(kinds, |kinds|, r[i].transactionId) {
      if i < |st.found| {
        assert r[i] == st.found[i];
      } else {
        assert r[i] == Entry(st);
      }
    }
  }

  /** The reply yields no entries, or those its classified lines yield. */
  lemma ParsedFromLines(response: string, lines: seq<string>)
    requires lines == Split(response, '\n')
    ensures ParsedHits(response) == [] || ParsedHits(response) == ParsedKinds(Kinds(lines))
  {
  }

  /** Every parsed entry carries a number that some opening line of the reply names. */
  lemma ParsedIdsNamed(response: string, lines: seq<string>)
    requires lines == Split(response, '\n')
    ensures var r := ParsedHits(response);
            forall i :: 0 <= i < |r| ==> NamedId(lines, r[i].transactionId)
  {
    KindsIdsOpened(Kinds(lines));
    ParsedFromLines(response, lines);
    var r := ParsedHits(response);
    forall i | 0 <= i < |r| ensures NamedId(lines, r[i].transactionId) {
      OpenedIsNamed(lines, r[i].transactionId);
    }
  }

  /** Every entry of `ds` has risk Medium. */
  predicate AllMedium(ds: seq<Detection>)
  {
    forall i :: 0 <= i < |ds| ==> ds[i].risk == Medium
  }

  lemma AppendMedium(ds: seq<Detection>, d: Detection)
    requires AllMedium(ds) && d.risk == Medium
    ensures AllMedium(ds + [d])
  {
    var r := ds + [d];
    forall i | 0 <= i < |r| ensures r[i].risk == Medium {
      if i < |ds| {
        assert r[i] == ds[i];
      }
    }
  }

  /** Closing a Medium entry keeps every entry Medium. */
  lemma FlushMedium(st: Scan)
    requires st.risk == Medium && AllMedium(st.found)
    ensures AllMedium(Flush(st))
  {
    if st.currentId.Some? {
      AppendMedium(st.found, Entry(st));
    }
  }

  /** A line other than a "risk" line keeps the risk Medium, open and closed. */
  lemma ApplyMedium(st: Scan, kind: LineKind)
    requires !kind.RiskLine? && st.risk == Medium && AllMedium(st.found)
    ensures Apply(st, kind).risk == Medium && AllMedium(Apply(st, kind).found)
  {
    if kind.Opening? {
      FlushMedium(st);
    }
  }

  /** Without a "risk" line among the first `m`, the state and every closed entry keep the default risk Medium. */
  lemma {:induction false} RunKeepsMedium(kinds: seq<LineKind>, m: int)
    requires 0 <= m <= |kinds|
    requires forall k :: 0 <= k < m ==> !kinds[k].RiskLine?
    ensures Run(kinds, m).risk == Medium && AllMedium(Run(kinds, m).found)
  {
    if m > 0 {
      RunKeepsMedium(kinds, m - 1);
      ApplyMedium(Run(kinds, m - 1), kinds[m - 1]);
    }
  }

  /** A line that does not mention "risk" is not a "risk" line. */
  lemma NoRiskWord(raw: string)
    requires !Contains(ToLower(Strip(raw)), "risk")
    ensures !Classify(raw).RiskLine?
  {
  }

  /** Classified lines without a "risk" line yield only Medium entries. */
  lemma KindsRiskMedium(kinds: seq<LineKind>)
    requires forall k :: 0 <= k < |kinds| ==> !kinds[k].RiskLine?
    ensures AllMedium(ParsedKinds(kinds))
  {
    RunKeepsMedium(kinds, |kinds|);
    FlushMedium(Run(kinds, |kinds|));
  }

  /** A reply none of whose lines mentions "risk" yields only Medium entries. */
  lemma DefaultRiskMedium(response: string, lines: seq<string>)
    requires lines == Split(response, '\n')
    requires forall k :: 0 <= k < |lines| ==> !Contains(ToLower(Strip(lines[k])), "risk")
    ensures var r := ParsedHits(response);
            forall i :: 0 <= i < |r| ==> r[i].risk == Medium
  {
    var kinds := Kinds(lines);
    forall k | 0 <= k < |kinds| ensures !kinds[k].RiskLine? {
      NoRiskWord(lines[k]);
    }
    KindsRiskMedium(kinds);
    ParsedFromLines(response, lines);
  }

  /** Once a line has opened an entry with a number, an entry stays open through line `m`. */
  lemma {:induction false} OpenAfter(kinds: seq<LineKind>, k: int, n: nat, m: int)
    requires 0 <= k < m <= |kinds| && kinds[k] == Opening(Some(n))
    ensures Run(kinds, m).currentId.Some?
  {
    if k < m - 1 {
      OpenAfter(kinds, k, n, m - 1);
    }
  }

  /** Once an opening line has named a number, an entry stays open to the end. */
  lemma StaysOpen(lines: seq<string>, k: int, n: nat)
    requires NamesAt(lines, k, n)
    ensures ScanLines(lines).currentId.Some?
  {
    ClassifyNames(lines[k], n);
    OpenAfter(Kinds(lines), k, n, |lines|);
  }

  /** Without "no suspicious transactions" the reply's entries are those of the finished scan. */
  lemma ParsedIsFlushed(response: string, lines: seq<string>)
    requires lines == Split(response, '\n')
    requires !Contains(ToLower(response), "no suspicious transactions")
    ensures ParsedHits(response) == Flush(ScanLines(lines))
  {
    assert ParsedHits(response) == ParsedKinds(Kinds(lines));
  }

  /**
   * The entry still open after the last line is not lost: a reply with an
   * opening line that names a number, and without "no suspicious
   * transactions", ends with the entry of the final state.
   */
  lemma LastEntryFlushed(response: string, lines: seq<string>, k: int, n: nat)
    requires lines == Split(response, '\n')
    requires NamesAt(lines, k, n)
    requires !Contains(ToLower(response), "no suspicious transactions")
    ensures ScanLines(lines).currentId.Some?
    ensures var r := ParsedHits(response);
            |r| >= 1 && r[|r| - 1] == Entry(ScanLines(lines))
  {
    StaysOpen(lines, k, n);
    ParsedIsFlushed(response, lines);
  }

  // ---------------------------------------------------------------------
  // Merging

  function IdsOf(ds: seq<Detection>): set<DetectionId>
  {
    set d | d in ds :: d.transactionId
  }

  lemma IdsOfAppend(ds: seq<Detection>, d: Detection)
    ensures IdsOf(ds + [d]) == IdsOf(ds) + {d.transactionId}
  {
    assert forall e :: e in ds + [d] <==> e in ds || e == d;
  }

  /** Detections whose ids are pairwise different. */
  predicate DistinctIds(ds: seq<Detection>)
  {
    forall i, j :: 0 <= i < j < |ds| ==> ds[i].transactionId != ds[j].transactionId
  }

  /**
   * The parsed detections the merge appends after the ids in `seen`: each
   * one whose id is neither in `seen` nor the id of an earlier parsed one.
   */
  function NewHits(llm: seq<Detection>, seen: set<DetectionId>): (r: seq<Detection>)
    ensures forall d :: d in r ==> d in llm && d.transactionId !in seen
    ensures IdsOf(r) + seen == IdsOf(llm) + seen
  {
    if llm == [] then []
    else
      var init, d := llm[..|llm| - 1], llm[|llm| - 1];
      var r0 := NewHits(init, seen);
      IdsOfAppend(init, d);
      assert llm == init + [d];
      if d.transactionId in seen + IdsOf(init) then
        r0
      else
        IdsOfAppend(r0, d);
        r0 + [d]
  }

  /** No two of the appended parsed hits share an id. */
  lemma {:induction false} NewHitsDistinct(llm: seq<Detection>, seen: set<DetectionId>)
    ensures DistinctIds(NewHits(llm, seen))
  {
    if llm != [] {
      var init, d := llm[..|llm| - 1], llm[|llm| - 1];
      NewHitsDistinct(init, seen);
      if d.transactionId !in seen + IdsOf(init) {
        AppendFresh(NewHits(init, seen), d);
      }
    }
  }

  /** One more parsed hit is appended exactly when its id is new. */
  lemma NewHitsAppend(init: seq<Detection>, d: Detection, seen: set<DetectionId>)
    ensures NewHits(init + [d], seen) == NewHits(init, seen) + (if d.transactionId in seen + IdsOf(init) then [] else [d])
  {
    assert (init + [d])[..|init|] == init;
  }

  /** The first `j + 1` parsed hits: one more is appended exactly when its id is new. */
  lemma NewHitsStep(llm: seq<Detection>, j: nat, seen: set<DetectionId>)
    requires j < |llm|
    ensures NewHits(llm[..j + 1], seen)
            == NewHits(llm[..j], seen) + (if llm[j].transactionId in seen + IdsOf(llm[..j]) then [] else [llm[j]])
    ensures seen + IdsOf(llm[..j + 1]) == seen + IdsOf(llm[..j]) + {llm[j].transactionId}
  {
    assert llm[..j + 1] == llm[..j] + [llm[j]];
    NewHitsAppend(llm[..j], llm[j], seen);
    IdsOfAppend(llm[..j], llm[j]);
  }

  /** Appending a detection with an unseen id keeps the ids distinct and adds that id. */
  lemma AppendFresh(ds: seq<Detection>, d: Detection)
    requires DistinctIds(ds) && d.transactionId !in IdsOf(ds)
    ensures DistinctIds(ds + [d])
    ensures IdsOf(ds + [d]) == IdsOf(ds) + {d.transactionId}
    ensures forall e :: e in ds + [d] ==> e in ds || e == d
  {
    IdsOfAppend(ds, d);
    forall i, j | 0 <= i < j < |ds + [d]| ensures (ds + [d])[i].transactionId != (ds + [d])[j].transactionId {
      assert (ds + [d])[i] == ds[i];
      if j == |ds| {
        assert ds[i] in ds;
      } else {
        assert (ds + [d])[j] == ds[j];
      }
    }
  }

  /** What `_merge_detection_results` returns: every rule hit, then the new parsed hits. */
  function Merged(rule: seq<Detection>, llm: seq<Detection>): (r: seq<Detection>)
    ensures |rule| <= |r| && r[..|rule|] == rule
    ensures forall d :: d in r[|rule|..] ==> d in llm && d.transactionId !in IdsOf(rule)
    ensures DistinctIds(r[|rule|..])
    ensures IdsOf(r) == IdsOf(rule) + IdsOf(llm)
  {
    var appended := NewHits(llm, IdsOf(rule));
    NewHitsDistinct(llm, IdsOf(rule));
    assert (rule + appended)[|rule|..] == appended;
    assert forall e :: e in rule + appended <==> e in rule || e in appended;
    rule + appended
  }

  /** `_merge_detection_results`: copy the rule hits, then append each parsed hit with an unseen id. */
  method MergeDetectionResults(rule: seq<Detection>, llm: seq<Detection>) returns (merged: seq<Detection>)
    ensures merged == Merged(rule, llm)
  {
    var added;
    merged, added := CopyRuleHits(rule);
    merged := AppendNewHits(merged, added, llm);
  }

  /** The first loop of the merge: every rule hit, and the set of their ids. */
  method CopyRuleHits(rule: seq<Detection>) returns (merged: seq<Detection>, added: set<DetectionId>)
    ensures merged == rule && added == IdsOf(rule)
  {
    merged := [];
    added := {};
    for i := 0 to |rule|
      invariant merged == rule[..i] && added == IdsOf(rule[..i])
    {
      assert rule[..i + 1] == rule[..i] + [rule[i]];
      IdsOfAppend(rule[..i], rule[i]);
      merged := merged + [rule[i]];
      added := added + {rule[i].transactionId};
    }
    assert rule[..|rule|] == rule;
  }

  /** The second loop of the merge: each parsed hit whose id has not been added yet. */
  method AppendNewHits(rule: seq<Detection>, seen: set<DetectionId>, llm: seq<Detection>) returns (merged: seq<Detection>)
    ensures merged == rule + NewHits(llm, seen)
  {
    merged := rule;
    var added := seen;
    for j := 0 to |llm|
      invariant merged == rule + NewHits(llm[..j], seen)
      invariant added == seen + IdsOf(llm[..j])
    {
      var d := llm[j];
      NewHitsStep(llm, j, seen);
      if d.transactionId !in added {
        merged := merged + [d];
        added := added + {d.transactionId};
      }
    }
    assert llm[..|llm|] == llm;
  }


  /**
   * The rule hits never block a parsed hit: rule ids are ObjectIds and
   * parsed ids are ints, so the parsed hits appended are those with an id
   * not seen earlier among the parsed hits themselves.
   */
  lemma {:induction false} RuleIdsNeverBlock(llm: seq<Detection>, seen: set<DetectionId>)
    requires forall id :: id in seen ==> id.ObjectRef?
    requires forall d :: d in llm ==> d.transactionId.Number?
    ensures NewHits(llm, seen) == NewHits(llm, {})
  {
    if llm != [] {
      var init := llm[..|llm| - 1];
      assert forall d :: d in init ==> d in llm;
      RuleIdsNeverBlock(init, seen);
    }
  }

  // ---------------------------------------------------------------------
  // The analysis

  /** The dictionary `analyze_transactions` returns. */
  datatype FraudReport = FraudReport(status: string, message: string, suspicious: seq<Detection>)

  /** The reply is asked for only when the rules flagged something or there are more than ten transactions. */
  predicate ConsultsReply(ts: seq<Transaction>)
  {
    RuleHits(ts) != [] || |ts| > 10
  }

  /** What `analyze_transactions` returns for `ts`, given the reply it would receive. */
  function FraudAnalysisOf(ts: seq<Transaction>, reply: string): (r: FraudReport)
    ensures r.status == "completed"
  {
    if ts == [] then
      FraudReport("completed", "No transactions provided for analysis.", [])
    else if ConsultsReply(ts) then
      FraudReport("completed", "Fraud analysis completed.", Merged(RuleHits(ts), ParsedHits(reply)))
    else
      FraudReport("completed", "Fraud analysis completed using rule-based detection only.", RuleHits(ts))
  }

  /** `analyze_transactions`, with the reply to the prompt given as `reply`. */
  method AnalyzeTransactions(ts: seq<Transaction>, reply: string) returns (report: FraudReport)
    ensures report == FraudAnalysisOf(ts, reply)
  {
    if ts == [] {
      return FraudReport("completed", "No transactions provided for analysis.", []);
    }
    var suspicious := RuleBasedDetection(ts);
    if suspicious != [] || |ts| > 10 {
      var parsed := ProcessLlmResponse(reply);
      var merged := MergeDetectionResults(suspicious, parsed);
      return FraudReport("completed", "Fraud analysis completed.", merged);
    }
    return FraudReport("completed", "Fraud analysis completed using rule-based detection only.", suspicious);
  }

  /**
   * The report keeps every rule hit first and, when a reply is consulted,
   * adds each parsed hit whose number was not already reported by the
   * reply: no parsed hit is ever dropped because of a rule hit.
   */
  lemma ReportAddsEveryParsedId(ts: seq<Transaction>, reply: string)
    requires ts != [] && ConsultsReply(ts)
    ensures FraudAnalysisOf(ts, reply).suspicious == RuleHits(ts) + NewHits(ParsedHits(reply), {})
    ensures IdsOf(FraudAnalysisOf(ts, reply).suspicious) == IdsOf(RuleHits(ts)) + IdsOf(ParsedHits(reply))
  {
    var rule := RuleHits(ts);
    forall id | id in IdsOf(rule) ensures id.ObjectRef? {
      var d :| d in rule && d.transactionId == id;
      var i :| 0 <= i < |rule| && rule[i] == d;
    }
    RuleIdsNeverBlock(ParsedHits(reply), IdsOf(rule));
  }

  /** One to three transactions: no rule runs, the reply is not consulted and the report is empty. */
  lemma FewTransactionsSkipReply(ts: seq<Transaction>, reply: string)
    requires 1 <= |ts| <= 3
    ensures !ConsultsReply(ts)
    ensures FraudAnalysisOf(ts, reply).suspicious == []
    ensures FraudAnalysisOf(ts, reply).message == "Fraud analysis completed using rule-based detection only."
  {
  }
}
