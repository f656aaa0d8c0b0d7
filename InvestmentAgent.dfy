/**
 * The deterministic parts of the investment advisor
 * (app/agents/investment_agent.py): how market sentiment is described,
 * which market entries are listed, the value shown for a holding, and the
 * line-by-line reading of the model's reply into a recommendation. The
 * reply is a parameter; so is `float()`, written `parse`.
 */
module InvestmentAgent {
  import opened Sums
  import opened Domain
  import opened Text
  import opened Reading
  import opened PortfolioModel

  // ---------------------------------------------------------------------
  // Market data and holdings shown to the model
  // ---------------------------------------------------------------------

  datatype Sentiment = Negative | Neutral | Positive

  /** The description of a sentiment score. */
  function SentimentBand(score: real): Sentiment
  {
    if score < -0.3 then Negative else if score < 0.3 then Neutral else Positive
  }

  function SentimentRank(s: Sentiment): int
  {
    match s
    case Negative => 0
    case Neutral => 1
    case Positive => 2
  }

  /** A higher score never gets a gloomier description, and each band starts at its threshold. */
  lemma SentimentMonotone(a: real, b: real)
    requires a <= b
    ensures SentimentRank(SentimentBand(a)) <= SentimentRank(SentimentBand(b))
    ensures SentimentBand(-0.3) == Neutral && SentimentBand(0.3) == Positive
  {
  }

  /** A value of the market-trends dictionary: a number, some other scalar, or a nested dictionary. */
  datatype TrendValue = Number(x: real) | Scalar(text: string) | Table

  const SentimentKey := "current_sentiment_score"

  /** The sentiment line of the prompt, present when the trends carry a numeric sentiment score. */
  function SentimentOf(trends: map<string, TrendValue>): (r: Option<Sentiment>)
    ensures r.Some? <==> SentimentKey in trends && trends[SentimentKey].Number?
  {
    if SentimentKey in trends && trends[SentimentKey].Number? then Some(SentimentBand(trends[SentimentKey].x)) else None
  }

  /** The trend entries listed one per line, in the dictionary's key order `keys`. */
  function ListedTrends(keys: seq<string>, trends: map<string, TrendValue>): (r: seq<string>)
    ensures forall k :: k in r <==> k in keys && k in trends && k != SentimentKey && !trends[k].Table?
    ensures |r| <= |keys|
  {
    if keys == [] then []
    else
      var k := keys[|keys| - 1];
      var init := ListedTrends(keys[..|keys| - 1], trends);
      assert forall j :: j in keys <==> j in keys[..|keys| - 1] || j == k by {
        assert keys == keys[..|keys| - 1] + [k];
      }
      if k in trends && k != SentimentKey && !trends[k].Table? then init + [k] else init
  }

  /** The value shown for a holding: its `current_value` unless that is missing or zero, else price times quantity. */
  function ShownValue(p: Portfolio): real
  {
    if p.currentValue.Some? && p.currentValue.value != 0.0 then p.currentValue.value else TotalPurchaseValue(p)
  }

  /**
   * The shown value takes `current_value` as the holding's total, not as
   * the per-unit price of the model: a missing or zero value falls back to
   * the purchase total, and otherwise it is the model's current total
   * divided by the quantity.
   */
  lemma ShownValueConvention(p: Portfolio)
    ensures p.currentValue.None? || p.currentValue.value == 0.0 ==> ShownValue(p) == TotalPurchaseValue(p)
    ensures p.currentValue.Some? && p.currentValue.value != 0.0 ==>
              ShownValue(p) * p.quantity == TotalCurrentValue(p).value
  {
  }

  // ---------------------------------------------------------------------
  // Reading the reply
  // ---------------------------------------------------------------------

  datatype Section = NoSection | AllocationSection | ReasoningSection | ReturnsSection | RisksSection

  /**
   * The state of the scan: the section, the investment most recently
   * allocated, and the recommendation's collections. `order` lists the
   * allocation's keys in insertion order, the order a dictionary keeps.
   */
  datatype InvestScan = InvestScan(
    section: Section,
    current: Option<string>,
    allocation: map<string, real>,
    order: seq<string>,
    reasoning: seq<string>,
    expectedReturns: map<string, string>,
    risks: map<string, string>)

  const StartScan := InvestScan(NoSection, None, map[], [], [], map[], map[])

  const Unknown := "Unknown"

  /** Python truthiness of the current investment: set, and not the empty name. */
  predicate Truthy(current: Option<string>)
  {
    current.Some? && current.value != ""
  }

  /** The section a header line opens; `None` when the line is not a header. */
  function HeaderSection(line: string, low: string): Option<Section>
  {
    if Contains(low, "allocation") || (Contains(low, "recommend") && '%' in line) then Some(AllocationSection)
    else if Contains(low, "reason") || Contains(low, "why") then Some(ReasoningSection)
    else if Contains(low, "return") || Contains(low, "expect") then Some(ReturnsSection)
    else if Contains(low, "risk") then Some(RisksSection)
    else None
  }

  /** The name and percentage an allocation line carries, if it carries one. */
  function AllocationEntry(line: string, parse: string -> Option<real>): Option<(string, real)>
  {
    if (':' in line || '-' in line) && '%' in line then
      var parts := if ':' in line then Split(line, ':') else Split(line, '-');
      var percentage := FirstMarked(Words(parts[1]), '%', "%", parse);
      if percentage.Some? then Some((Strip(parts[0]), percentage.value)) else None
    else None
  }

  /** The pieces after `:` when the line has one, else the whole line. */
  function ColonParts(line: string): (parts: seq<string>)
    ensures |parts| >= 1
  {
    if ':' in line then Split(line, ':') else [line]
  }

  /** The entry of an allocation line, if it carries one, recorded as the current investment. */
  function AddEntry(st: InvestScan, entry: Option<(string, real)>): InvestScan
  {
    match entry
    case None => st
    case Some(e) =>
      st.(allocation := st.allocation[e.0 := e.1 / 100.0],
          order := if e.0 in st.allocation then st.order else st.order + [e.0],
          current := Some(e.0),
          expectedReturns := st.expectedReturns[e.0 := Unknown],
          risks := st.risks[e.0 := Unknown])
  }

  /** The first `%` word of the line's last piece, when the line has a `%`. */
  function ReturnsWord(line: string): Option<string>
  {
    if '%' in line then
      var parts := ColonParts(line);
      FirstWordWith(Words(parts[|parts| - 1]), '%')
    else None
  }

  /** The line's last piece, stripped, when it has a `:`; else the whole line. */
  function RiskDescription(line: string): string
  {
    var parts := ColonParts(line);
    if |parts| > 1 then Strip(parts[|parts| - 1]) else line
  }

  /** A line of the returns section, with its lower-case form: its `%` word, for the current investment if it names it. */
  function ReturnsLine(st: InvestScan, low: string, word: Option<string>): InvestScan
  {
    if Truthy(st.current) && Contains(low, st.current.value) then
      match word
      case Some(w) => st.(expectedReturns := st.expectedReturns[st.current.value := w])
      case None => st
    else st
  }

  /** A line of the risks section, with its lower-case form: its description, for the current investment if it names it. */
  function RisksLine(st: InvestScan, low: string, description: string): InvestScan
  {
    if Truthy(st.current) && Contains(low, st.current.value) then
      st.(risks := st.risks[st.current.value := description])
    else st
  }

  /**
   * What a line of the reply is, whatever section the scan is in: blank
   * once stripped, a header opening a section, or a line to be read in
   * the current section, with its lower-case form and what it would give
   * in each section.
   */
  datatype InvestLine =
    | Blank
    | Header(section: Section)
    | Body(line: string, low: string, entry: Option<(string, real)>, returned: Option<string>, description: string)

  function ClassifyInvest(raw: string, parse: string -> Option<real>): InvestLine
  {
    var line := Strip(raw);
    var low := ToLower(line);
    if line == [] then Blank
    else
      match HeaderSection(line, low)
      case Some(section) => Header(section)
      case None => Body(line, low, AllocationEntry(line, parse), ReturnsWord(line), RiskDescription(line))
  }

  lemma ClassifyInvestCases(raw: string, parse: string -> Option<real>)
    ensures var line := Strip(raw);
            var header := HeaderSection(line, ToLower(line));
            (line == [] ==> ClassifyInvest(raw, parse) == Blank)
            && (line != [] && header.Some? ==> ClassifyInvest(raw, parse) == Header(header.value))
            && (line != [] && header.None? ==>
                  ClassifyInvest(raw, parse)
                  == Body(line, ToLower(line), AllocationEntry(line, parse), ReturnsWord(line), RiskDescription(line)))
  {
  }

  /** A line that is not a header, read in the current section. */
  function SectionLine(st: InvestScan, body: InvestLine): InvestScan
    requires body.Body?
  {
    match st.section
    case AllocationSection => AddEntry(st, body.entry)
    case ReasoningSection => if |body.line| > 15 then st.(reasoning := st.reasoning + [body.line]) else st
    case ReturnsSection => ReturnsLine(st, body.low, body.returned)
    case RisksSection => RisksLine(st, body.low, body.description)
    case NoSection => st
  }

  /** One line of the reply: blank lines are skipped, headers switch section, other lines are read in the section. */
  function ApplyInvest(st: InvestScan, kind: InvestLine): InvestScan
  {
    match kind
    case Blank => st
    case Header(AllocationSection) => st.(section := AllocationSection, current := None)
    case Header(section) => st.(section := section)
    case Body(_, _, _, _, _) => SectionLine(st, kind)
  }

  /** One line of the reply applied to the scan. */
  function InvestStep(st: InvestScan, raw: string, parse: string -> Option<real>): InvestScan
  {
    ApplyInvest(st, ClassifyInvest(raw, parse))
  }

  function InvestKinds(lines: seq<string>, parse: string -> Option<real>): (kinds: seq<InvestLine>)
    ensures |kinds| == |lines|
  {
    seq(|lines|, k requires 0 <= k < |lines| => ClassifyInvest(lines[k], parse))
  }

  /** The scan after the first `m` lines. */
  function RunInvest(kinds: seq<InvestLine>, m: int): InvestScan
    requires 0 <= m <= |kinds|
  {
    if m == 0 then StartScan else ApplyInvest(RunInvest(kinds, m - 1), kinds[m - 1])
  }

  /** The scan after all the given lines. */
  function ScanInvest(lines: seq<string>, parse: string -> Option<real>): InvestScan
  {
    RunInvest(InvestKinds(lines, parse), |lines|)
  }
  /** `x / total`, one normalised share. */
  function Share(x: real, total: real): real
    requires total != 0.0
  {
    x / total
  }

  /** Whether the allocations are rescaled: their total is positive and more than 0.01 away from 1. */
  predicate NeedsNormalising(total: real)
  {
    total > 0.0 && Abs(total - 1.0) > 0.01
  }

  /** The allocation after normalisation. */
  function Normalized(allocation: map<string, real>, order: seq<string>): (r: map<string, real>)
    ensures r.Keys == allocation.Keys
  {
    var total := SumMapOver(allocation, order);
    if NeedsNormalising(total) then map k | k in allocation :: Share(allocation[k], total) else allocation
  }

  /** What `_process_investment_response` returns. */
  datatype Recommendation = Recommendation(
    totalInvestmentAmount: real,
    allocation: map<string, real>,
    reasoning: seq<string>,
    expectedReturns: map<string, string>,
    risks: map<string, string>)

  /** The recommendation read from `response`. */
  function RecommendationOf(response: string, totalAmount: real, parse: string -> Option<real>): Recommendation
  {
    var st := ScanInvest(Split(response, '\n'), parse);
    Recommendation(totalAmount, Normalized(st.allocation, st.order), st.reasoning, st.expectedReturns, st.risks)
  }

  /** What `get_investment_recommendations` returns. */
  datatype InvestmentResult = InvestmentResult(status: string, message: string, recommendations: Recommendation)

  /** `get_investment_recommendations`, given the model's reply: always completed, investing the savings amount. */
  function InvestmentRecommendations(savingsAmount: real, reply: string, parse: string -> Option<real>): (r: InvestmentResult)
    ensures r.status == "completed"
    ensures r.recommendations.totalInvestmentAmount == savingsAmount
  {
    InvestmentResult("completed", "Investment recommendations generated successfully.",
      RecommendationOf(reply, savingsAmount, parse))
  }

  /** `_process_investment_response`. */
  method ProcessInvestmentResponse(response: string, totalAmount: real, parse: string -> Option<real>)
    returns (r: Recommendation)
    ensures r == RecommendationOf(response, totalAmount, parse)
  {
    var lines := Split(response, '\n');
    var st := ReadReply(lines, parse);
    ScanKeepsOrder(lines, parse);
    var allocation := NormalizeAllocation(st.allocation, st.order);
    r := Recommendation(totalAmount, allocation, st.reasoning, st.expectedReturns, st.risks);
  }

  /** The loop over the reply's lines. */
  method ReadReply(lines: seq<string>, parse: string -> Option<real>) returns (st: InvestScan)
    ensures st == ScanInvest(lines, parse)
  {
    st := StartScan;
    for i := 0 to |lines|
      invariant st == RunInvest(InvestKinds(lines, parse), i)
    {
      st := ReadInvestLine(st, lines[i], parse);
    }
  }

  /** The body of the loop over the reply's lines. */
  method ReadInvestLine(st: InvestScan, raw: string, parse: string -> Option<real>) returns (next: InvestScan)
    ensures next == InvestStep(st, raw, parse)
  {
    var line := Strip(raw);
    if line == [] {
      next := st;
    } else {
      var header := HeaderSection(line, ToLower(line));
      if header == Some(AllocationSection) {
        next := st.(section := AllocationSection, current := None);
      } else if header.Some? {
        next := st.(section := header.value);
      } else {
        next := ReadSectionLine(st, line, parse);
      }
    }
    ClassifyInvestCases(raw, parse);
  }

  /** A line that is not a header, read in the section the scan is in. */
  method ReadSectionLine(st: InvestScan, line: string, parse: string -> Option<real>) returns (next: InvestScan)
    ensures next == SectionLine(st, Body(line, ToLower(line), AllocationEntry(line, parse), ReturnsWord(line), RiskDescription(line)))
  {
    next := st;
    if st.section == AllocationSection {
      next := AddEntry(st, AllocationEntry(line, parse));
    } else if st.section == ReasoningSection {
      if |line| > 15 {
        next := st.(reasoning := st.reasoning + [line]);
      }
    } else if st.section == ReturnsSection {
      next := ReturnsLine(st, ToLower(line), ReturnsWord(line));
    } else if st.section == RisksSection {
      next := RisksLine(st, ToLower(line), RiskDescription(line));
    }
  }
  /** The loop dividing every allocation, in key order, by their total when that total is off. */
  method NormalizeAllocation(allocation: map<string, real>, order: seq<string>) returns (r: map<string, real>)
    requires Distinct(order)
    requires forall k :: k in allocation <==> k in order
    ensures r == Normalized(allocation, order)
  {
    r := allocation;
    var total := SumMapOver(allocation, order);
    if NeedsNormalising(total) {
      for i := 0 to |order|
        invariant r.Keys == allocation.Keys
        invariant forall j :: 0 <= j < i ==> r[order[j]] == Share(allocation[order[j]], total)
        invariant forall j :: i <= j < |order| ==> r[order[j]] == allocation[order[j]]
      {
        r := r[order[i] := Share(r[order[i]], total)];
      }
      forall k | k in allocation ensures r[k] == Share(allocation[k], total) {
        var j :| 0 <= j < |order| && order[j] == k;
      }
    }
  }

  // ---------------------------------------------------------------------
  // Properties of the reading
  // ---------------------------------------------------------------------

  /** `order` lists the allocation's keys once each. */
  ghost predicate OrderListsKeys(st: InvestScan)
  {
    Distinct(st.order) && forall k :: k in st.allocation <==> k in st.order
  }

  /** Outside its own section, a line leaves the allocation, the current investment and the reasoning alone. */
  lemma SectionLineFrame(st: InvestScan, body: InvestLine)
    requires body.Body?
    ensures var next := SectionLine(st, body);
            next.section == st.section
            && (st.section != AllocationSection ==>
                  next.allocation == st.allocation && next.order == st.order && next.current == st.current)
            && (st.section != ReasoningSection ==> next.reasoning == st.reasoning)
  {
  }

  lemma AddEntryKeepsOrder(st: InvestScan, e: Option<(string, real)>)
    requires OrderListsKeys(st)
    ensures OrderListsKeys(AddEntry(st, e))
  {
    if e.Some? && e.value.0 !in st.allocation {
      var o := st.order + [e.value.0];
      assert forall i :: 0 <= i < |st.order| ==> o[i] == st.order[i];
    }
  }

  lemma ApplyKeepsOrder(st: InvestScan, kind: InvestLine)
    requires OrderListsKeys(st)
    ensures OrderListsKeys(ApplyInvest(st, kind))
  {
    if kind.Body? {
      SectionLineFrame(st, kind);
      if st.section == AllocationSection {
        AddEntryKeepsOrder(st, kind.entry);
      }
    }
  }

  lemma {:induction false} RunKeepsOrder(kinds: seq<InvestLine>, m: int)
    requires 0 <= m <= |kinds|
    ensures OrderListsKeys(RunInvest(kinds, m))
  {
    if m > 0 {
      RunKeepsOrder(kinds, m - 1);
      ApplyKeepsOrder(RunInvest(kinds, m - 1), kinds[m - 1]);
    }
  }

  /** After any reply, `order` lists the allocation's keys once each. */
  lemma ScanKeepsOrder(lines: seq<string>, parse: string -> Option<real>)
    ensures OrderListsKeys(ScanInvest(lines, parse))
  {
    RunKeepsOrder(InvestKinds(lines, parse), |lines|);
  }

  /**
   * The three per-investment maps share their keys, the current investment
   * is one of them, and a name with an upper-case letter keeps "Unknown"
   * for its return and its risk.
   */
  predicate EntriesAgree(st: InvestScan)
  {
    st.expectedReturns.Keys == st.allocation.Keys && st.risks.Keys == st.allocation.Keys
    && (st.current.Some? ==> st.current.value in st.allocation)
    && forall k :: k in st.allocation && HasUpper(k) ==> st.expectedReturns[k] == Unknown && st.risks[k] == Unknown
  }

  predicate HasUpper(s: string)
  {
    exists i :: 0 <= i < |s| && IsUpper(s[i])
  }

  lemma ReturnsLineAgrees(st: InvestScan, line: string, word: Option<string>)
    requires EntriesAgree(st)
    ensures EntriesAgree(ReturnsLine(st, ToLower(line), word))
  {
    if Truthy(st.current) && Contains(ToLower(line), st.current.value) {
      FoundInLowerHasNoUpper(line, st.current.value);
    }
  }

  lemma RisksLineAgrees(st: InvestScan, line: string, description: string)
    requires EntriesAgree(st)
    ensures EntriesAgree(RisksLine(st, ToLower(line), description))
  {
    if Truthy(st.current) && Contains(ToLower(line), st.current.value) {
      FoundInLowerHasNoUpper(line, st.current.value);
    }
  }

  lemma AddEntryAgrees(st: InvestScan, e: Option<(string, real)>)
    requires EntriesAgree(st)
    ensures EntriesAgree(AddEntry(st, e))
  {
  }

  /** A line read in a section carries its own lower-case form. */
  predicate LowerBody(kind: InvestLine)
  {
    kind.Body? ==> kind.low == ToLower(kind.line)
  }

  lemma ApplyAgrees(st: InvestScan, kind: InvestLine)
    requires EntriesAgree(st) && LowerBody(kind)
    ensures EntriesAgree(ApplyInvest(st, kind))
  {
    if kind.Body? {
      match st.section
      case AllocationSection => AddEntryAgrees(st, kind.entry);
      case ReturnsSection => ReturnsLineAgrees(st, kind.line, kind.returned);
      case RisksSection => RisksLineAgrees(st, kind.line, kind.description);
      case ReasoningSection =>
      case NoSection =>
    }
  }

  predicate AllLowerBodies(kinds: seq<InvestLine>)
  {
    forall k :: 0 <= k < |kinds| ==> LowerBody(kinds[k])
  }

  lemma {:induction false} RunAgrees(kinds: seq<InvestLine>, m: int)
    requires 0 <= m <= |kinds| && AllLowerBodies(kinds)
    ensures EntriesAgree(RunInvest(kinds, m))
  {
    if m > 0 {
      RunAgrees(kinds, m - 1);
      ApplyAgrees(RunInvest(kinds, m - 1), kinds[m - 1]);
    }
  }

  lemma ScanAgrees(lines: seq<string>, parse: string -> Option<real>)
    ensures EntriesAgree(ScanInvest(lines, parse))
  {
    var kinds := InvestKinds(lines, parse);
    forall k | 0 <= k < |kinds| ensures LowerBody(kinds[k]) {
      ClassifyInvestCases(lines[k], parse);
    }
    RunAgrees(kinds, |lines|);
  }

  /**
   * In the recommendation, allocation, expected returns and risks name the
   * same investments, and a name with an upper-case letter has "Unknown"
   * return and risk whatever the reply says about it.
   */
  lemma RecommendationEntriesAgree(response: string, totalAmount: real, parse: string -> Option<real>)
    ensures var r := RecommendationOf(response, totalAmount, parse);
            r.expectedReturns.Keys == r.allocation.Keys && r.risks.Keys == r.allocation.Keys
            && forall k :: k in r.allocation && HasUpper(k) ==> r.expectedReturns[k] == Unknown && r.risks[k] == Unknown
  {
    ScanAgrees(Split(response, '\n'), parse);
  }

  /** A line whose lower-case form names a reason, a return, an expectation or a risk is a header. */
  lemma HeaderWordsConsumed(st: InvestScan, raw: string, parse: string -> Option<real>)
    requires var low := ToLower(Strip(raw));
             Contains(low, "reason") || Contains(low, "why") || Contains(low, "return")
             || Contains(low, "expect") || Contains(low, "risk")
    ensures InvestStep(st, raw, parse).allocation == st.allocation
    ensures InvestStep(st, raw, parse).order == st.order
  {
    HeaderWordsClassify(raw, parse);
    ApplyHeaderKeeps(st, ClassifyInvest(raw, parse));
  }

  lemma HeaderWordsClassify(raw: string, parse: string -> Option<real>)
    requires var low := ToLower(Strip(raw));
             Contains(low, "reason") || Contains(low, "why") || Contains(low, "return")
             || Contains(low, "expect") || Contains(low, "risk")
    ensures ClassifyInvest(raw, parse).Header?
  {
    var line := Strip(raw);
    HeaderWords(line, ToLower(line));
    ClassifyInvestCases(raw, parse);
  }

  /** A header leaves the allocation and its order alone. */
  lemma ApplyHeaderKeeps(st: InvestScan, kind: InvestLine)
    requires kind.Header?
    ensures ApplyInvest(st, kind).allocation == st.allocation
    ensures ApplyInvest(st, kind).order == st.order
  {
  }

  lemma HeaderWords(line: string, low: string)
    requires low == ToLower(line)
    requires Contains(low, "reason") || Contains(low, "why") || Contains(low, "return")
             || Contains(low, "expect") || Contains(low, "risk")
    ensures line != [] && HeaderSection(line, low).Some?
  {
  }

  /** Every entry is longer than 15 characters. */
  predicate AllLong(reasoning: seq<string>)
  {
    forall i :: 0 <= i < |reasoning| ==> |reasoning[i]| > 15
  }

  lemma AppendLong(reasoning: seq<string>, line: string)
    requires AllLong(reasoning) && |line| > 15
    ensures AllLong(reasoning + [line])
  {
    var r := reasoning + [line];
    forall i | 0 <= i < |r| ensures |r[i]| > 15 {
      if i < |reasoning| {
        assert r[i] == reasoning[i];
      }
    }
  }

  lemma ApplyKeepsReasoning(st: InvestScan, kind: InvestLine)
    requires AllLong(st.reasoning)
    ensures AllLong(ApplyInvest(st, kind).reasoning)
  {
    if kind.Body? {
      SectionLineFrame(st, kind);
      if st.section == ReasoningSection && |kind.line| > 15 {
        AppendLong(st.reasoning, kind.line);
      }
    }
  }

  lemma {:induction false} RunKeepsReasoning(kinds: seq<InvestLine>, m: int)
    requires 0 <= m <= |kinds|
    ensures AllLong(RunInvest(kinds, m).reasoning)
  {
    if m > 0 {
      RunKeepsReasoning(kinds, m - 1);
      ApplyKeepsReasoning(RunInvest(kinds, m - 1), kinds[m - 1]);
    }
  }

  /** Every reasoning entry is longer than 15 characters. */
  lemma ReasoningIsLong(response: string, totalAmount: real, parse: string -> Option<real>)
    ensures var r := RecommendationOf(response, totalAmount, parse).reasoning;
            forall i :: 0 <= i < |r| ==> |r[i]| > 15
  {
    RunKeepsReasoning(InvestKinds(Split(response, '\n'), parse), |Split(response, '\n')|);
  }
  /** Rescaled allocations add up to 1 and keep their ratios; otherwise they are left as they are. */
  lemma NormalizedSumsToOne(allocation: map<string, real>, order: seq<string>)
    ensures NeedsNormalising(SumMapOver(allocation, order)) ==> SumMapOver(Normalized(allocation, order), order) == 1.0
    ensures NeedsNormalising(SumMapOver(allocation, order)) ==>
              forall a, b :: a in allocation && b in allocation ==>
                Normalized(allocation, order)[a] * allocation[b] == Normalized(allocation, order)[b] * allocation[a]
    ensures !NeedsNormalising(SumMapOver(allocation, order)) ==> Normalized(allocation, order) == allocation
  {
    var total := SumMapOver(allocation, order);
    if NeedsNormalising(total) {
      var r := Normalized(allocation, order);
      NormalizedScales(allocation, order, total);
      ScaledSumsToOne(allocation, r, total, order);
      ScaledRatios(allocation, r, 1.0 / total);
    }
  }

  /** Rescaling divides every allocation by the total. */
  lemma NormalizedScales(allocation: map<string, real>, order: seq<string>, total: real)
    requires total == SumMapOver(allocation, order) && NeedsNormalising(total)
    ensures forall k :: k in allocation ==> Normalized(allocation, order)[k] == allocation[k] * (1.0 / total)
  {
    var r := Normalized(allocation, order);
    forall k | k in allocation ensures r[k] == allocation[k] * (1.0 / total) {
      assert r[k] == Share(allocation[k], total);
    }
  }

  /** Values divided by their own non-zero total add up to 1. */
  lemma ScaledSumsToOne(m: map<string, real>, r: map<string, real>, total: real, order: seq<string>)
    requires total == SumMapOver(m, order) && total != 0.0
    requires r.Keys == m.Keys
    requires forall k :: k in m ==> r[k] == m[k] * (1.0 / total)
    ensures SumMapOver(r, order) == 1.0
  {
    SumMapScale(m, r, 1.0 / total, order);
    assert (1.0 / total) * total == 1.0;
  }

  /** Values all multiplied by the same factor keep their ratios. */
  lemma ScaledRatios(m: map<string, real>, r: map<string, real>, scale: real)
    requires r.Keys == m.Keys
    requires forall k :: k in m ==> r[k] == m[k] * scale
    ensures forall a, b :: a in m && b in m ==> r[a] * m[b] == r[b] * m[a]
  {
    forall a, b | a in m && b in m ensures r[a] * m[b] == r[b] * m[a] {
      var x, y := m[a], m[b];
      assert r[a] * y == x * scale * y;
    }
  }

  /** The recommendation's allocations add up to 1 whenever their parsed total needed rescaling. */
  lemma AllocationSumsToOne(response: string, lines: seq<string>, totalAmount: real, parse: string -> Option<real>)
    requires lines == Split(response, '\n')
    ensures var st := ScanInvest(lines, parse);
            NeedsNormalising(SumMapOver(st.allocation, st.order)) ==>
              SumMapOver(RecommendationOf(response, totalAmount, parse).allocation, st.order) == 1.0
  {
    var st := ScanInvest(lines, parse);
    NormalizedSumsToOne(st.allocation, st.order);
  }
}

