/**
 * The two result builders of backend/app/services/ai_service.py:
 * `parse_ai_response`, which shapes the language model's reply, and
 * `generate_fallback_response`, the rule-based result used when the model is
 * unavailable. Totals, percentages, the expense breakdown and the insights are
 * computed by the code in both; number formatting (`:.1f`, `:.2f`) is passed in
 * as the functions `fixed1` and `fixed2`.
 */
module AiService {
  import opened Wrappers
  import opened Text
  import opened AiSections

  /**
   * The validated budget the back end analyses. Its model class is not part of
   * this model, so the derived totals are carried as given fields; `expenses`
   * keeps the order of the request's object.
   */
  datatype BudgetInput = BudgetInput(
    monthlyIncome: real,
    expenses: seq<(string, real)>,
    goal: string,
    totalExpenses: real,
    remaining: real)

  datatype BreakdownRow = BreakdownRow(category: string, amount: real, percentage: real)

  datatype Analysis = Analysis(
    analysis: string,
    financialAdvice: string,
    savingTips: seq<string>,
    savingPlan: Option<map<string, seq<string>>>,
    whereSavingsCouldGo: string,
    breakdown: seq<BreakdownRow>,
    insights: seq<string>,
    goal: string)

  /** `expenses.get(key, 0)`. */
  function Get(expenses: seq<(string, real)>, key: string): (v: real)
    ensures (forall k :: 0 <= k < |expenses| ==> expenses[k].0 != key) ==> v == 0.0
    ensures (exists k :: 0 <= k < |expenses| && expenses[k].0 == key) ==>
      exists k :: 0 <= k < |expenses| && expenses[k] == (key, v)
  {
    if |expenses| == 0 then 0.0
    else if expenses[0].0 == key then expenses[0].1
    else
      var v := Get(expenses[1..], key);
      assert forall k :: 0 <= k < |expenses| - 1 ==> expenses[1..][k] == expenses[k + 1];
      v
  }

  /** `part` as a percentage of `income`, and 0 when there is no income. */
  function Rate(part: real, income: real): (pct: real)
    ensures income <= 0.0 ==> pct == 0.0
    ensures income > 0.0 ==> pct * income == part * 100.0
    ensures income > 0.0 && part >= 0.0 ==> pct >= 0.0
  {
    if income > 0.0 then part / income * 100.0 else 0.0
  }

  function SavingsRate(b: BudgetInput): real {
    Rate(Get(b.expenses, "savings"), b.monthlyIncome)
  }

  function HousingRate(b: BudgetInput): real {
    Rate(Get(b.expenses, "rent"), b.monthlyIncome)
  }

  function Abs(x: real): (r: real)
    ensures r >= 0.0 && (r == x || r == -x)
  {
    if x < 0.0 then -x else x
  }

  function Min(a: int, b: int): int {
    if a <= b then a else b
  }

  // ------------------------------------------------------------ breakdown

  /** The entries with amount `v`, in order. */
  function WithAmount(s: seq<(string, real)>, v: real): seq<(string, real)> {
    if |s| == 0 then []
    else (if s[0].1 == v then [s[0]] else []) + WithAmount(s[1..], v)
  }

  predicate SortedDesc(s: seq<(string, real)>) {
    forall i, j :: 0 <= i < j < |s| ==> s[i].1 >= s[j].1
  }

  /** Place `x` after the entries with a larger amount and before the rest. */
  function Insert(x: (string, real), s: seq<(string, real)>): (r: seq<(string, real)>)
    ensures |r| == |s| + 1
    ensures multiset(r) == multiset(s) + multiset{x}
  {
    if |s| == 0 || s[0].1 <= x.1 then [x] + s
    else
      assert s == [s[0]] + s[1..];
      [s[0]] + Insert(x, s[1..])
  }

  lemma {:induction false} InsertSorted(x: (string, real), s: seq<(string, real)>)
    requires SortedDesc(s)
    ensures SortedDesc(Insert(x, s))
    decreases |s|
  {
    if |s| > 0 && s[0].1 > x.1 {
      var rest := Insert(x, s[1..]);
      InsertSorted(x, s[1..]);
      assert s == [s[0]] + s[1..];
      forall k | 0 <= k < |rest| ensures rest[k].1 <= s[0].1 {
        assert rest[k] in multiset(rest);
        assert rest[k] == x || rest[k] in multiset(s[1..]);
      }
      assert Insert(x, s) == [s[0]] + rest;
    }
  }

  /**
   * `sorted(expenses.items(), key=amount, reverse=True)`: entries by amount,
   * largest first; Python's sort is stable, so equal amounts keep their order.
   */
  function SortDesc(s: seq<(string, real)>): (r: seq<(string, real)>)
    ensures |r| == |s|
    ensures SortedDesc(r)
    ensures multiset(r) == multiset(s)
  {
    if |s| == 0 then []
    else
      InsertSorted(s[0], SortDesc(s[1..]));
      assert s == [s[0]] + s[1..];
      Insert(s[0], SortDesc(s[1..]))
  }

  lemma {:induction false} InsertWithAmount(x: (string, real), s: seq<(string, real)>, v: real)
    ensures WithAmount(Insert(x, s), v) == (if x.1 == v then [x] else []) + WithAmount(s, v)
    decreases |s|
  {
    if |s| == 0 || s[0].1 <= x.1 {
      assert ([x] + s)[1..] == s;
    } else {
      var rest := Insert(x, s[1..]);
      InsertWithAmount(x, s[1..], v);
      assert ([s[0]] + rest)[1..] == rest;
      assert x.1 == v ==> s[0].1 != v;
    }
  }

  /** The sort is stable: the entries with any one amount keep their relative order. */
  lemma {:induction false} SortDescStable(s: seq<(string, real)>, v: real)
    ensures WithAmount(SortDesc(s), v) == WithAmount(s, v)
    decreases |s|
  {
    if |s| > 0 {
      SortDescStable(s[1..], v);
      InsertWithAmount(s[0], SortDesc(s[1..]), v);
    }
  }

  /** Python `str.replace("_", " ")`: every underscore becomes a space. */
  function Unscore(s: string): (r: string)
    ensures |r| == |s| && '_' !in r
    ensures forall i :: 0 <= i < |s| ==> r[i] == (if s[i] == '_' then ' ' else s[i])
  {
    seq(|s|, i requires 0 <= i < |s| => if s[i] == '_' then ' ' else s[i])
  }

  /**
   * Python `str.title()` over ASCII letters: a letter that follows a letter is
   * lower-cased, any other letter upper-cased, everything else kept.
   */
  function TitleFrom(s: string, afterLetter: bool): (r: string)
    ensures |r| == |s|
    ensures forall i :: 0 <= i < |s| ==> LowerChar(r[i]) == LowerChar(s[i])
    ensures |s| > 0 && IsLetter(s[0]) && !afterLetter ==> !IsLowerLetter(r[0])
    ensures forall i :: 0 < i < |s| ==> (IsLetter(s[i]) && !IsLetter(s[i - 1]) ==> !IsLowerLetter(r[i]))
    ensures forall i :: 0 < i < |s| ==> (IsLetter(s[i]) && IsLetter(s[i - 1]) ==> !IsUpper(r[i]))
  {
    if |s| == 0 then []
    else
      var c := if !IsLetter(s[0]) then s[0] else if afterLetter then LowerChar(s[0]) else UpperChar(s[0]);
      var rest := TitleFrom(s[1..], IsLetter(s[0]));
      assert forall i :: 0 < i < |s| ==> s[1..][i - 1] == s[i];
      [c] + rest
  }

  /** A category key as the breakdown shows it: `category.replace("_", " ").title()`. */
  function DisplayName(key: string): (name: string)
    ensures |name| == |key|
    ensures Lower(name) == Lower(Unscore(key))
  {
    var name := TitleFrom(Unscore(key), false);
    assert forall i :: 0 <= i < |name| ==> Lower(name)[i] == Lower(Unscore(key))[i];
    name
  }

  /** Rounding to the nearest integer, ties to the even one. */
  function RoundHalfEven(x: real): (n: int)
    ensures x - 0.5 <= n as real <= x + 0.5
    ensures x.Floor as real == x ==> n as real == x
  {
    var f := x.Floor;
    var d := x - f as real;
    if d < 0.5 then f else if d > 0.5 then f + 1 else if f % 2 == 0 then f else f + 1
  }

  /** `round(x, 1)` on the exact value: the nearest tenth, ties to the even tenth. */
  function Round1(x: real): (r: real)
    ensures x - 0.05 <= r <= x + 0.05
    ensures (r * 10.0).Floor as real == r * 10.0
    ensures (x * 10.0).Floor as real == x * 10.0 ==> r == x
  {
    var n := RoundHalfEven(x * 10.0);
    assert (n as real / 10.0) * 10.0 == n as real;
    n as real / 10.0
  }

  /** One breakdown row: the display name, the amount, and its share of income to one decimal. */
  function Row(e: (string, real), income: real): BreakdownRow {
    BreakdownRow(DisplayName(e.0), e.1, Round1(Rate(e.1, income)))
  }

  /** `rows` is the breakdown of `b`: one row per expense, in the order of the stable descending sort. */
  ghost predicate IsBreakdown(rows: seq<BreakdownRow>, b: BudgetInput) {
    var sorted := SortDesc(b.expenses);
    |rows| == |sorted| && forall k :: 0 <= k < |rows| ==> rows[k] == Row(sorted[k], b.monthlyIncome)
  }

  /** The breakdown is ordered by amount, largest first, and holds every expense amount once. */
  lemma BreakdownOrdered(rows: seq<BreakdownRow>, b: BudgetInput)
    requires IsBreakdown(rows, b)
    ensures |rows| == |b.expenses|
    ensures forall i, j :: 0 <= i < j < |rows| ==> rows[i].amount >= rows[j].amount
    ensures multiset(seq(|rows|, i requires 0 <= i < |rows| => (SortDesc(b.expenses)[i].0, rows[i].amount)))
      == multiset(b.expenses)
  {
    var sorted := SortDesc(b.expenses);
    assert seq(|rows|, i requires 0 <= i < |rows| => (sorted[i].0, rows[i].amount)) == sorted;
  }

  /** Each percentage is the amount's share of income within 0.05, and 0 when there is no income. */
  lemma BreakdownPercentages(rows: seq<BreakdownRow>, b: BudgetInput, k: nat)
    requires IsBreakdown(rows, b) && k < |rows|
    ensures b.monthlyIncome <= 0.0 ==> rows[k].percentage == 0.0
    ensures b.monthlyIncome > 0.0 ==>
      Rate(rows[k].amount, b.monthlyIncome) - 0.05 <= rows[k].percentage <= Rate(rows[k].amount, b.monthlyIncome) + 0.05
  {
    var row := rows[k];
    assert row == Row(SortDesc(b.expenses)[k], b.monthlyIncome);
    if b.monthlyIncome <= 0.0 {
      assert Rate(row.amount, b.monthlyIncome) == 0.0;
      assert (0.0 * 10.0).Floor as real == 0.0 * 10.0;
    }
  }

  /** The breakdown loop: one row appended per sorted entry. */
  method BuildBreakdown(b: BudgetInput) returns (rows: seq<BreakdownRow>)
    ensures IsBreakdown(rows, b)
  {
    var sorted := SortDesc(b.expenses);
    rows := [];
    var i := 0;
    while i < |sorted|
      invariant 0 <= i <= |sorted|
      invariant |rows| == i
      invariant forall k :: 0 <= k < i ==> rows[k] == Row(sorted[k], b.monthlyIncome)
    {
      var (category, amount) := sorted[i];
      var pct := if b.monthlyIncome > 0.0 then amount / b.monthlyIncome * 100.0 else 0.0;
      rows := rows + [BreakdownRow(DisplayName(category), amount, Round1(pct))];
      i := i + 1;
    }
  }

  // ---------------------------------------------------- parse_ai_response

  // The insight and tip texts below keep their first character(s) as a separate
  // literal: the solver then sees the leading character without unfolding the
  // whole string, which the proofs that tell these texts apart rely on.
  const ExcellentRate: string := "\U{2705}" + " Excellent savings rate (20%+)"
  const AimHigher: string := "\U{1F4A1}" + " Aim to increase savings to 10-20%"
  const Guideline: string := "5" + "0/30/20 guideline: 50% needs, 30% wants, 20% savings"

  /** The savings-rate insight: one of three, by the thresholds 20 and 10. */
  function RateInsight(rate: real): (line: string)
    ensures line == ExcellentRate <==> rate >= 20.0
    ensures line == AimHigher <==> rate < 10.0
    ensures line == Guideline <==> 10.0 <= rate < 20.0
  {
    assert ExcellentRate[0] != AimHigher[0] && ExcellentRate[0] != Guideline[0] && AimHigher[0] != Guideline[0];
    if rate >= 20.0 then ExcellentRate else if rate < 10.0 then AimHigher else Guideline
  }

  /** The insights `parse_ai_response` computes. */
  function Insights(b: BudgetInput, fixed1: real -> string, fixed2: real -> string): seq<string> {
    (if b.monthlyIncome > 0.0 then
       ["Total expenses: $" + fixed2(b.totalExpenses) + " (" +
        fixed1(b.totalExpenses / b.monthlyIncome * 100.0) + "% of income)"]
     else []) +
    (if b.remaining > 0.0 then ["Remaining: $" + fixed2(b.remaining) + " \U{2014} consider adding to savings"]
     else if b.remaining < 0.0 then ["\U{26A0}\U{FE0F} Expenses exceed income by $" + fixed2(Abs(b.remaining))]
     else []) +
    [RateInsight(SavingsRate(b))]
  }

  /**
   * Exactly one savings-rate insight, always last; a total line exactly when there
   * is income; a remaining line exactly when something remains or is missing.
   */
  lemma InsightsShape(b: BudgetInput, fixed1: real -> string, fixed2: real -> string)
    ensures var ins := Insights(b, fixed1, fixed2);
      |ins| == (if b.monthlyIncome > 0.0 then 1 else 0) + (if b.remaining != 0.0 then 1 else 0) + 1 &&
      ins[|ins| - 1] == RateInsight(SavingsRate(b)) &&
      (forall k :: 0 <= k < |ins| - 1 ==> ins[k] != ExcellentRate && ins[k] != AimHigher && ins[k] != Guideline)
  {
    var ins := Insights(b, fixed1, fixed2);
    forall k | 0 <= k < |ins| - 1
      ensures ins[k] != ExcellentRate && ins[k] != AimHigher && ins[k] != Guideline
    {
      assert ins[k][0] == 'T' || ins[k][0] == 'R' || ins[k][0] == '\U{26A0}';
    }
  }

  /** The insights loop of `parse_ai_response`, one `append` per rule. */
  method AnalysisInsights(b: BudgetInput, fixed1: real -> string, fixed2: real -> string) returns (insights: seq<string>)
    ensures insights == Insights(b, fixed1, fixed2)
  {
    insights := [];
    if b.monthlyIncome > 0.0 {
      var totalPct := b.totalExpenses / b.monthlyIncome * 100.0;
      insights := insights + ["Total expenses: $" + fixed2(b.totalExpenses) + " (" + fixed1(totalPct) + "% of income)"];
    }
    if b.remaining > 0.0 {
      insights := insights + ["Remaining: $" + fixed2(b.remaining) + " \U{2014} consider adding to savings"];
    } else if b.remaining < 0.0 {
      insights := insights + ["\U{26A0}\U{FE0F} Expenses exceed income by $" + fixed2(Abs(b.remaining))];
    }
    var savingsPct := if b.monthlyIncome > 0.0 then Get(b.expenses, "savings") / b.monthlyIncome * 100.0 else 0.0;
    if savingsPct >= 20.0 {
      insights := insights + [ExcellentRate];
    } else if savingsPct < 10.0 {
      insights := insights + [AimHigher];
    } else {
      insights := insights + [Guideline];
    }
  }

  /**
   * `parse_ai_response`: the sections of the reply, the tips and plan as bullet
   * lists, the computed breakdown and insights, and the goal echoed. `rule` is the
   * header rule of `find_section`: `Exact` is the code as written, `Prefix` the
   * corrected rule under which the plan header of the prompt is found (see
   * `PlanHeaderMissed` and `PlanHeaderFound`).
   */
  method ParseAiResponse(text: string, b: BudgetInput, rule: HeaderRule, fixed1: real -> string, fixed2: real -> string)
    returns (r: Analysis)
    ensures r.analysis == text
    ensures var advice := FindSection(text, "FINANCIAL ADVICE", rule);
      r.financialAdvice == if advice != "" then advice else text[..Min(|text|, 500)]
    ensures r.savingTips == Bullets(FindSection(text, "SAVING TIPS", rule))
    ensures IsSavingPlan(r.savingPlan, FindSection(text, "SAVING PLAN", rule))
    ensures r.whereSavingsCouldGo == FindSection(text, "WHERE SAVINGS COULD GO", rule)
    ensures IsBreakdown(r.breakdown, b)
    ensures r.insights == Insights(b, fixed1, fixed2)
    ensures r.goal == b.goal
  {
    var financialAdvice := FindSection(text, "FINANCIAL ADVICE", rule);
    var savingTipsRaw := FindSection(text, "SAVING TIPS", rule);
    var savingPlanRaw := FindSection(text, "SAVING PLAN", rule);
    var whereSavingsCouldGo := FindSection(text, "WHERE SAVINGS COULD GO", rule);

    var savingTips := BulletList(savingTipsRaw);
    var savingPlan := SavingPlan(savingPlanRaw);
    var breakdown := BuildBreakdown(b);

    var insights := AnalysisInsights(b, fixed1, fixed2);

    r := Analysis(
      text,
      if financialAdvice != "" then financialAdvice else text[..Min(|text|, 500)],
      savingTips,
      savingPlan,
      whereSavingsCouldGo,
      breakdown,
      insights,
      b.goal);
  }

  // -------------------------------------------- generate_fallback_response

  // Leading characters split off as for the insight texts above.
  const ReviewTip: string := "R" + "eview your top 3 expenses\U{2014}can any be reduced?"
  const TransferTip: string := "S" + "et up automatic transfers to savings on payday."
  const EmergencyTip: string := "Aim " + "for 3\U{2013}6 months of expenses in an emergency fund."
  const IncreaseTip: string := "T" + "ry increasing savings by 1\U{2013}2% of income each month."
  const ClosingAdvice: string := "Small steps add up\U{2014}focus on one category to improve first."
  const FallbackWhere: string :=
    "After an emergency fund, people often learn about high-yield savings accounts, " +
    "retirement accounts (e.g. 401(k), IRA), and broad market index funds. " +
    "Talk to a licensed financial advisor for your situation."
  const FallbackExcellent: string := "\U{2705} Excellent savings rate"
  const FallbackGuideline: string := "50/30/20: 50% needs, 30% wants, 20% savings"

  /** `"- " + t` for every tip, in order. */
  function Dashed(tips: seq<string>): (r: seq<string>)
    ensures |r| == |tips|
    ensures forall k :: 0 <= k < |tips| ==> r[k] == "- " + tips[k]
  {
    seq(|tips|, k requires 0 <= k < |tips| => "- " + tips[k])
  }

  function Opening(b: BudgetInput, fixed2: real -> string): string {
    "Based on your income of $" + fixed2(b.monthlyIncome) + " and expenses of " +
    "$" + fixed2(b.totalExpenses) + ", you have $" + fixed2(b.remaining) + " left. "
  }

  function ExceedHead(b: BudgetInput, fixed2: real -> string): string {
    "\U{26A0}\U{FE0F} Your expenses exceed income by $" + fixed2(Abs(b.remaining)) + ". "
  }

  function HousingHead(b: BudgetInput, fixed1: real -> string): string {
    "Housing is " + fixed1(HousingRate(b)) + "% of your income"
  }

  function SavingHead(b: BudgetInput, fixed1: real -> string): string {
    "You're saving " + fixed1(SavingsRate(b)) + "%"
  }

  const ExceedTail: string := "Focus on reducing spending or increasing income before saving."
  const HousingTail: string := " (often recommended under 30%). "
  const SavingTail: string := "; building toward 20% can help long-term. "

  /** The first rule that applies: over budget, else housing above 30% of income, else nothing. */
  function Situation(b: BudgetInput, fixed1: real -> string, fixed2: real -> string): string {
    if b.remaining < 0.0 then ExceedHead(b, fixed2) + ExceedTail
    else if HousingRate(b) > 30.0 then HousingHead(b, fixed1) + HousingTail
    else ""
  }

  /** The savings note: when the rate is under 20% and nothing is missing. */
  function SavingNote(b: BudgetInput, fixed1: real -> string): string {
    if 0.0 <= SavingsRate(b) < 20.0 && b.remaining >= 0.0 then SavingHead(b, fixed1) + SavingTail else ""
  }

  /** The advice paragraph of the fallback: the situation, then one note per rule that applies. */
  function FallbackAdvice(b: BudgetInput, fixed1: real -> string, fixed2: real -> string): string {
    Opening(b, fixed2) + Situation(b, fixed1, fixed2) + SavingNote(b, fixed1) + ClosingAdvice
  }

  /** The fallback advice opens with the income, expenses and what is left. */
  lemma AdviceOpens(b: BudgetInput, fixed1: real -> string, fixed2: real -> string)
    ensures StartsWith(FallbackAdvice(b, fixed1, fixed2), "Based on your income of $" + fixed2(b.monthlyIncome))
  {
    var head := "Based on your income of $" + fixed2(b.monthlyIncome);
    assert head[..|head|] == head;
    var s1 := head + " and expenses of ";
    StartsWithAppend(head, head, " and expenses of ");
    var s2 := s1 + "$";
    StartsWithAppend(s1, head, "$");
    var s3 := s2 + fixed2(b.totalExpenses);
    StartsWithAppend(s2, head, fixed2(b.totalExpenses));
    var s4 := s3 + ", you have $";
    StartsWithAppend(s3, head, ", you have $");
    var s5 := s4 + fixed2(b.remaining);
    StartsWithAppend(s4, head, fixed2(b.remaining));
    var opening := s5 + " left. ";
    StartsWithAppend(s5, head, " left. ");
    var s6 := opening + Situation(b, fixed1, fixed2);
    StartsWithAppend(opening, head, Situation(b, fixed1, fixed2));
    var s7 := s6 + SavingNote(b, fixed1);
    StartsWithAppend(s6, head, SavingNote(b, fixed1));
    StartsWithAppend(s7, head, ClosingAdvice);
  }

  /**
   * A part of the situation or of the savings note is a part of the advice:
   * the advice is `Opening + Situation + SavingNote + ClosingAdvice`.
   */
  lemma AdviceHolds(b: BudgetInput, fixed1: real -> string, fixed2: real -> string, t: string)
    requires Contains(Situation(b, fixed1, fixed2), t) || Contains(SavingNote(b, fixed1), t)
    ensures Contains(FallbackAdvice(b, fixed1, fixed2), t)
  {
    var opening, situation, note := Opening(b, fixed2), Situation(b, fixed1, fixed2), SavingNote(b, fixed1);
    if Contains(situation, t) {
      ContainsRight(opening, situation, t);
      ContainsLeft(opening + situation, note, t);
    } else {
      ContainsRight(opening + situation, note, t);
    }
    ContainsLeft(opening + situation + note, ClosingAdvice, t);
  }

  /** Over budget, the advice states the shortfall. */
  lemma AdviceWarnsOverBudget(b: BudgetInput, fixed1: real -> string, fixed2: real -> string)
    requires b.remaining < 0.0
    ensures Contains(FallbackAdvice(b, fixed1, fixed2), ExceedHead(b, fixed2))
  {
    ContainsConcat([], ExceedHead(b, fixed2), ExceedTail);
    assert [] + ExceedHead(b, fixed2) + ExceedTail == Situation(b, fixed1, fixed2);
    AdviceHolds(b, fixed1, fixed2, ExceedHead(b, fixed2));
  }

  /** Housing above 30% of income is flagged when the budget is not exceeded. */
  lemma AdviceFlagsHousing(b: BudgetInput, fixed1: real -> string, fixed2: real -> string)
    requires b.remaining >= 0.0 && HousingRate(b) > 30.0
    ensures Contains(FallbackAdvice(b, fixed1, fixed2), HousingHead(b, fixed1))
  {
    ContainsConcat([], HousingHead(b, fixed1), HousingTail);
    assert [] + HousingHead(b, fixed1) + HousingTail == Situation(b, fixed1, fixed2);
    AdviceHolds(b, fixed1, fixed2, HousingHead(b, fixed1));
  }

  /** A savings rate under 20% is noted when the budget is not exceeded. */
  lemma AdviceNotesSavings(b: BudgetInput, fixed1: real -> string, fixed2: real -> string)
    requires 0.0 <= SavingsRate(b) < 20.0 && b.remaining >= 0.0
    ensures Contains(FallbackAdvice(b, fixed1, fixed2), SavingHead(b, fixed1))
  {
    ContainsConcat([], SavingHead(b, fixed1), SavingTail);
    assert [] + SavingHead(b, fixed1) + SavingTail == SavingNote(b, fixed1);
    AdviceHolds(b, fixed1, fixed2, SavingHead(b, fixed1));
  }

  /** The advice always ends with the closing line. */
  lemma AdviceCloses(b: BudgetInput, fixed1: real -> string, fixed2: real -> string)
    ensures EndsWith(FallbackAdvice(b, fixed1, fixed2), ClosingAdvice)
  {
    EndsWithAppend(Opening(b, fixed2) + Situation(b, fixed1, fixed2) + SavingNote(b, fixed1), ClosingAdvice);
  }

  /** The advice paragraph as the source assembles it, one `+=` per rule. */
  method BuildAdvice(b: BudgetInput, fixed1: real -> string, fixed2: real -> string) returns (advice: string)
    ensures advice == FallbackAdvice(b, fixed1, fixed2)
  {
    var savingsPct := SavingsRate(b);
    var housingPct := HousingRate(b);
    ghost var opening, situation, note := Opening(b, fixed2), Situation(b, fixed1, fixed2), SavingNote(b, fixed1);
    advice := Opening(b, fixed2);
    if b.remaining < 0.0 {
      advice := advice + (ExceedHead(b, fixed2) + ExceedTail);
    } else if housingPct > 30.0 {
      advice := advice + (HousingHead(b, fixed1) + HousingTail);
    } else {
      assert advice == opening + situation;
    }
    assert advice == opening + situation;
    if savingsPct < 20.0 && savingsPct >= 0.0 && b.remaining >= 0.0 {
      advice := advice + (SavingHead(b, fixed1) + SavingTail);
    } else {
      assert advice == opening + situation + note;
    }
    assert advice == opening + situation + note;
    advice := advice + ClosingAdvice;
  }

  function AddTip(b: BudgetInput, fixed2: real -> string): string {
    "Add $" + fixed2(b.remaining) + " to savings or an emergency fund."
  }

  /**
   * The fallback tips: the two standing tips always; the amount left over first
   * when something remains; the rate tip when saving under 20%; the review tip
   * put in front when over budget.
   */
  method FallbackTips(b: BudgetInput, fixed2: real -> string) returns (tips: seq<string>)
    ensures TransferTip in tips && EmergencyTip in tips
    ensures b.remaining < 0.0 ==> tips[0] == ReviewTip
    ensures b.remaining > 0.0 ==> tips[0] == AddTip(b, fixed2)
    ensures ReviewTip in tips <==> b.remaining < 0.0
    ensures IncreaseTip in tips <==> SavingsRate(b) < 20.0
    ensures |tips| == 2 + (if b.remaining != 0.0 then 1 else 0) + (if SavingsRate(b) < 20.0 then 1 else 0)
  {
    var savingsPct := SavingsRate(b);
    tips := [];
    if b.remaining > 0.0 {
      tips := tips + [AddTip(b, fixed2)];
    }
    tips := tips + [TransferTip];
    tips := tips + [EmergencyTip];
    if savingsPct < 20.0 {
      tips := tips + [IncreaseTip];
    }
    if b.remaining < 0.0 {
      tips := [ReviewTip] + tips;
    }
    assert IncreaseTip[0] == 'T' && ReviewTip[0] == 'R' && TransferTip[0] == 'S' && EmergencyTip[0] == 'A';
    assert AddTip(b, fixed2)[0] == 'A' && AddTip(b, fixed2)[1] == 'd' && EmergencyTip[1] == 'i';
  }

  function FallbackTotalLine(b: BudgetInput, fixed1: real -> string): string
    requires b.monthlyIncome > 0.0
  {
    "Total expenses: " + fixed1(b.totalExpenses / b.monthlyIncome * 100.0) + "% of income"
  }

  function FallbackRemainingLine(b: BudgetInput, fixed2: real -> string): string {
    "Remaining: $" + fixed2(b.remaining)
  }

  /** The fallback insights: a total line when there is income, a remaining line when it is not zero, one rate line last. */
  method FallbackInsights(b: BudgetInput, fixed1: real -> string, fixed2: real -> string) returns (insights: seq<string>)
    ensures |insights| == (if b.monthlyIncome > 0.0 then 1 else 0) + (if b.remaining != 0.0 then 1 else 0) + 1
    ensures b.monthlyIncome > 0.0 ==> insights[0] == FallbackTotalLine(b, fixed1)
    ensures b.remaining != 0.0 ==> insights[|insights| - 2] == FallbackRemainingLine(b, fixed2)
    ensures insights[|insights| - 1] == if SavingsRate(b) >= 20.0 then FallbackExcellent else FallbackGuideline
  {
    insights := [];
    if b.monthlyIncome > 0.0 {
      insights := insights + [FallbackTotalLine(b, fixed1)];
    }
    if b.remaining != 0.0 {
      insights := insights + [FallbackRemainingLine(b, fixed2)];
    }
    if SavingsRate(b) >= 20.0 {
      insights := insights + [FallbackExcellent];
    } else {
      insights := insights + [FallbackGuideline];
    }
  }

  /** The fixed two-phase plan of the fallback: three steps each, starting from the current savings rate. */
  function FallbackPlan(rate: real, fixed1: real -> string): (plan: map<string, seq<string>>)
    ensures plan.Keys == {"months_1_3", "months_4_6"}
    ensures |plan["months_1_3"]| == 3 && |plan["months_4_6"]| == 3
    ensures plan["months_1_3"][0] == "Increase savings from " + fixed1(rate) + "% to " + fixed1(rate + 2.0) + "%"
    ensures plan["months_4_6"][0] == "Grow savings to " + fixed1(rate + 5.0) + "% of income"
  {
    assert "months_1_3" != "months_4_6" by {
      assert "months_1_3"[7] != "months_4_6"[7];
    }
    map[
      "months_1_3" := [
        "Increase savings from " + fixed1(rate) + "% to " + fixed1(rate + 2.0) + "%",
        "Set up automatic transfer of $50-100/month to savings",
        "Build emergency fund: aim for $500-1000 first"],
      "months_4_6" := [
        "Grow savings to " + fixed1(rate + 5.0) + "% of income",
        "Increase emergency fund to 1-2 months of expenses",
        "Review and optimize top expense categories"]]
  }

  /**
   * `generate_fallback_response`: rule-based advice, tips, a fixed two-phase plan
   * built from the current savings rate, the computed breakdown and insights, and
   * the goal echoed.
   */
  method FallbackResponse(b: BudgetInput, fixed1: real -> string, fixed2: real -> string) returns (r: Analysis)
    ensures r.financialAdvice == FallbackAdvice(b, fixed1, fixed2)
    ensures TransferTip in r.savingTips && EmergencyTip in r.savingTips
    ensures b.remaining < 0.0 ==> r.savingTips[0] == ReviewTip
    ensures b.remaining > 0.0 ==> r.savingTips[0] == AddTip(b, fixed2)
    ensures ReviewTip in r.savingTips <==> b.remaining < 0.0
    ensures IncreaseTip in r.savingTips <==> SavingsRate(b) < 20.0
    ensures |r.savingTips| == 2 + (if b.remaining != 0.0 then 1 else 0) + (if SavingsRate(b) < 20.0 then 1 else 0)
    // the plan: both phases, three steps each, starting from the current rate
    ensures r.savingPlan == Some(FallbackPlan(SavingsRate(b), fixed1))
    ensures r.whereSavingsCouldGo == FallbackWhere
    ensures IsBreakdown(r.breakdown, b)
    ensures |r.insights| == (if b.monthlyIncome > 0.0 then 1 else 0) + (if b.remaining != 0.0 then 1 else 0) + 1
    ensures b.monthlyIncome > 0.0 ==> r.insights[0] == FallbackTotalLine(b, fixed1)
    ensures b.remaining != 0.0 ==> r.insights[|r.insights| - 2] == FallbackRemainingLine(b, fixed2)
    ensures r.insights[|r.insights| - 1] == if SavingsRate(b) >= 20.0 then FallbackExcellent else FallbackGuideline
    ensures r.analysis == r.financialAdvice + "\n\n" + Join(Dashed(r.savingTips), "\n")
    ensures r.goal == b.goal
  {
    var savingsPct := SavingsRate(b);
    var financialAdvice := BuildAdvice(b, fixed1, fixed2);
    var savingTips := FallbackTips(b, fixed2);
    var savingPlan := FallbackPlan(savingsPct, fixed1);
    var breakdown := BuildBreakdown(b);
    var insights := FallbackInsights(b, fixed1, fixed2);
    r := Analysis(
      financialAdvice + "\n\n" + Join(Dashed(savingTips), "\n"),
      financialAdvice,
      savingTips,
      Some(savingPlan),
      FallbackWhere,
      breakdown,
      insights,
      b.goal);
  }
}
