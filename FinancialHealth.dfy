/** The financial-health scorer of the front end: four sub-scores computed from
    a profile of monthly income, categorised expenses, savings, debt,
    investments and emergency fund; a weighted, rounded total; an ordered
    advice list; and the colour band of a score. Money is exact `real`. */
module FinancialHealth {
  import opened Text
  import opened Seqs

  /** The inputs of the form. `expenses` keeps the categories in the order
      their keys were first set, as a JavaScript object does. */
  datatype Profile = Profile(
    income: real,
    expenses: seq<(string, real)>,
    savings: real,
    debt: real,
    investments: real,
    emergencyFund: real)

  datatype Metrics = Metrics(savingsRate: real, debtRatio: real, emergencyMonths: real, investmentRatio: real)
  datatype SubScores = SubScores(savings: real, debt: real, emergency: real, investment: real)
  datatype ScoreResult = ScoreResult(total: int, scores: SubScores, metrics: Metrics)

  /** The profile the component starts with. */
  const DefaultProfile := Profile(
    5000.0,
    [("rent", 1200.0), ("food", 600.0), ("transport", 300.0),
     ("utilities", 200.0), ("entertainment", 400.0), ("other", 300.0)],
    15000.0, 5000.0, 7500.0, 5000.0)

  function ExpenseValue(e: (string, real)): real { e.1 }

  /** The sum of the expense categories. */
  function TotalExpenses(p: Profile): real {
    SumBy(p.expenses, ExpenseValue)
  }

  function MonthlySavings(p: Profile): real {
    p.income - TotalExpenses(p)
  }

  function Min(a: real, b: real): real { if a <= b then a else b }
  function Max(a: real, b: real): real { if a >= b then a else b }

  /** The four ratios divide by income, total expenses and savings; in the
      source a zero there yields Infinity or NaN, so the model asks for them
      to be non-zero. */
  predicate Computable(p: Profile) {
    p.income != 0.0 && TotalExpenses(p) != 0.0 && p.savings != 0.0
  }

  function ComputeMetrics(p: Profile): (m: Metrics)
    requires Computable(p)
    ensures m.savingsRate * p.income == MonthlySavings(p) * 100.0
    ensures m.debtRatio * p.income == p.debt * 12.0
    ensures m.emergencyMonths * TotalExpenses(p) == p.emergencyFund
    ensures m.investmentRatio * p.savings == p.investments
  {
    Metrics(
      (MonthlySavings(p) / p.income) * 100.0,
      (p.debt / p.income) * 12.0,
      p.emergencyFund / TotalExpenses(p),
      p.investments / p.savings)
  }

  /** Twice the savings rate, clamped to [0, 100]. */
  function SavingsScore(savingsRate: real): (r: real)
    ensures 0.0 <= r <= 100.0
    ensures 0.0 <= savingsRate * 2.0 <= 100.0 ==> r == savingsRate * 2.0
  {
    Min(Max(savingsRate * 2.0, 0.0), 100.0)
  }

  /** 100 minus ten points per unit of debt ratio, floored at 0 only. */
  function DebtScore(debtRatio: real): (r: real)
    ensures r >= 0.0
    ensures debtRatio >= 0.0 ==> r <= 100.0
    ensures debtRatio < 0.0 ==> r > 100.0
  {
    Max(100.0 - debtRatio * 10.0, 0.0)
  }

  /** Twenty points per month of coverage, capped at 100 only. */
  function EmergencyScore(emergencyMonths: real): (r: real)
    ensures r <= 100.0
    ensures emergencyMonths >= 0.0 ==> r >= 0.0
    ensures emergencyMonths < 0.0 ==> r < 0.0
  {
    Min(emergencyMonths * 20.0, 100.0)
  }

  /** A hundred points per unit of investment ratio, capped at 100 only. */
  function InvestmentScore(investmentRatio: real): (r: real)
    ensures r <= 100.0
    ensures investmentRatio >= 0.0 ==> r >= 0.0
    ensures investmentRatio < 0.0 ==> r < 0.0
  {
    Min(investmentRatio * 100.0, 100.0)
  }

  /** JavaScript `Math.round`: the nearest integer, halves rounded up. */
  function RoundHalfUp(x: real): (r: int)
    ensures r as real - 0.5 <= x < r as real + 0.5
  {
    (x + 0.5).Floor
  }

  const SavingsWeight: real := 0.3
  const DebtWeight: real := 0.25
  const EmergencyWeight: real := 0.2
  const InvestmentWeight: real := 0.25

  function Weighted(s: SubScores): real {
    s.savings * SavingsWeight + s.debt * DebtWeight
    + s.emergency * EmergencyWeight + s.investment * InvestmentWeight
  }

  predicate InRange(s: SubScores) {
    0.0 <= s.savings <= 100.0 && 0.0 <= s.debt <= 100.0
    && 0.0 <= s.emergency <= 100.0 && 0.0 <= s.investment <= 100.0
  }

  /** `calculateScore`: metrics, the four sub-scores and the rounded total. */
  function CalculateScore(p: Profile): (r: ScoreResult)
    requires Computable(p)
    ensures r.metrics == ComputeMetrics(p)
    ensures r.scores == SubScores(SavingsScore(r.metrics.savingsRate), DebtScore(r.metrics.debtRatio),
                                  EmergencyScore(r.metrics.emergencyMonths), InvestmentScore(r.metrics.investmentRatio))
    ensures 0.0 <= r.scores.savings <= 100.0 && r.scores.debt >= 0.0
    ensures r.scores.emergency <= 100.0 && r.scores.investment <= 100.0
    ensures r.total as real - 0.5 <= Weighted(r.scores) < r.total as real + 0.5
  {
    var m := ComputeMetrics(p);
    var s := SubScores(SavingsScore(m.savingsRate), DebtScore(m.debtRatio),
                       EmergencyScore(m.emergencyMonths), InvestmentScore(m.investmentRatio));
    ScoreResult(RoundHalfUp(Weighted(s)), s, m)
  }

  /** The weights sum to 1, so a total of in-range sub-scores stays in [0, 100]. */
  lemma TotalInRange(s: SubScores)
    requires InRange(s)
    ensures SavingsWeight + DebtWeight + EmergencyWeight + InvestmentWeight == 1.0
    ensures 0 <= RoundHalfUp(Weighted(s)) <= 100
  {
    var w := Weighted(s);
    assert 0.0 <= w <= 100.0;
  }

  /** The debt sub-score is at most 100 for a non-negative debt and a positive income. */
  lemma DebtScoreAtMost100(p: Profile)
    requires Computable(p) && p.debt >= 0.0 && p.income > 0.0
    ensures 0.0 <= CalculateScore(p).scores.debt <= 100.0
  {
    var m := ComputeMetrics(p);
    assert m.debtRatio >= 0.0 by {
      assert m.debtRatio * p.income >= 0.0;
    }
  }

  /** For a fixed positive income, more debt never raises the debt sub-score. */
  lemma DebtScoreMonotone(p: Profile, moreDebt: real)
    requires Computable(p) && p.income > 0.0 && p.debt <= moreDebt
    ensures CalculateScore(p.(debt := moreDebt)).scores.debt <= CalculateScore(p).scores.debt
  {
    var q := p.(debt := moreDebt);
    assert TotalExpenses(q) == TotalExpenses(p);
    var a := ComputeMetrics(p).debtRatio;
    var b := ComputeMetrics(q).debtRatio;
    assert (b - a) * p.income == (moreDebt - p.debt) * 12.0;
    assert a <= b;
  }

  /** With positive total expenses, a larger emergency fund never lowers the
      emergency sub-score. */
  lemma EmergencyScoreMonotone(p: Profile, moreFund: real)
    requires Computable(p) && TotalExpenses(p) > 0.0 && p.emergencyFund <= moreFund
    ensures CalculateScore(p).scores.emergency <= CalculateScore(p.(emergencyFund := moreFund)).scores.emergency
  {
    var q := p.(emergencyFund := moreFund);
    assert TotalExpenses(q) == TotalExpenses(p);
    var a := ComputeMetrics(p).emergencyMonths;
    var b := ComputeMetrics(q).emergencyMonths;
    assert (b - a) * TotalExpenses(p) == moreFund - p.emergencyFund;
    assert a <= b;
  }

  /** For a profile with no negative amounts, positive income, expenses and
      savings, every sub-score and the total lie in [0, 100]. */
  lemma NonNegativeProfileInRange(p: Profile)
    requires p.income > 0.0 && TotalExpenses(p) > 0.0 && p.savings > 0.0
    requires p.debt >= 0.0 && p.emergencyFund >= 0.0 && p.investments >= 0.0
    ensures InRange(CalculateScore(p).scores)
    ensures 0 <= CalculateScore(p).total <= 100
  {
    var m := ComputeMetrics(p);
    assert m.debtRatio >= 0.0 by { assert m.debtRatio * p.income >= 0.0; }
    assert m.emergencyMonths >= 0.0 by { assert m.emergencyMonths * TotalExpenses(p) >= 0.0; }
    assert m.investmentRatio >= 0.0 by { assert m.investmentRatio * p.savings >= 0.0; }
    TotalInRange(CalculateScore(p).scores);
  }

  // ---------------------------------------------------------------------------
  // Advice

  datatype Advice =
    | LowSavings(savingsRate: real)
    | HighDebt
    | LowEmergency(emergencyMonths: real)
    | LowInvestment(investmentPercent: real)
    | StatusGood

  /** The advice sentence; `fixed1` stands for `Number.prototype.toFixed(1)`. */
  function AdviceText(a: Advice, fixed1: real -> string): string {
    match a
    case LowSavings(rate) => "Savings rate " + fixed1(rate) + "% is low, it is recommended to reach more than 20%"
    case HighDebt => "Debt ratio is high, it is recommended to make a repayment plan"
    case LowEmergency(months) => "Emergency fund can last for " + fixed1(months) + " months, it is recommended to reach 3-6 months"
    case LowInvestment(pct) => "Investment ratio " + fixed1(pct) + "% can be appropriately increased"
    case StatusGood => "Financial status is good, keep it up!"
  }

  /** The four warnings in the order `getAdvice` checks them. */
  function AllWarnings(r: ScoreResult): seq<Advice> {
    [LowSavings(r.metrics.savingsRate), HighDebt,
     LowEmergency(r.metrics.emergencyMonths), LowInvestment(r.metrics.investmentRatio * 100.0)]
  }

  /** Which of the four thresholds fire, in the same order. */
  function Fired(r: ScoreResult): seq<bool> {
    [r.scores.savings < 60.0, r.scores.debt < 70.0, r.scores.emergency < 80.0, r.scores.investment < 50.0]
  }

  predicate AnyWarning(r: ScoreResult) {
    r.scores.savings < 60.0 || r.scores.debt < 70.0 || r.scores.emergency < 80.0 || r.scores.investment < 50.0
  }

  /** `getAdvice`: one warning per strict threshold, in the fixed order, and
      the "status is good" message exactly when none fired. */
  method GetAdvice(r: ScoreResult) returns (advice: seq<Advice>)
    ensures advice != []
    ensures AnyWarning(r) ==> advice == Select(AllWarnings(r), Fired(r))
    ensures !AnyWarning(r) ==> advice == [StatusGood]
    ensures LowSavings(r.metrics.savingsRate) in advice <==> r.scores.savings < 60.0
    ensures HighDebt in advice <==> r.scores.debt < 70.0
    ensures LowEmergency(r.metrics.emergencyMonths) in advice <==> r.scores.emergency < 80.0
    ensures LowInvestment(r.metrics.investmentRatio * 100.0) in advice <==> r.scores.investment < 50.0
    ensures StatusGood in advice <==> !AnyWarning(r)
  {
    var w, f := AllWarnings(r), Fired(r);
    advice := [];
    assert advice == Select(w[..0], f[..0]);
    if f[0] {
      advice := advice + [w[0]];
    }
    assert advice == Select(w[..1], f[..1]) by { assert w[..1][..0] == w[..0] && f[..1][..0] == f[..0]; }
    if f[1] {
      advice := advice + [w[1]];
    }
    assert advice == Select(w[..2], f[..2]) by { assert w[..2][..1] == w[..1] && f[..2][..1] == f[..1]; }
    if f[2] {
      advice := advice + [w[2]];
    }
    assert advice == Select(w[..3], f[..3]) by { assert w[..3][..2] == w[..2] && f[..3][..2] == f[..2]; }
    if f[3] {
      advice := advice + [w[3]];
    }
    assert advice == Select(w, f) by { assert w[..3] == w[..|w| - 1] && f[..3] == f[..|f| - 1]; }
    SelectedWarnings(r);
    if |advice| == 0 {
      advice := advice + [StatusGood];
    }
  }

  /** Which warnings a selection holds, and that it is empty exactly when no
      threshold fires. */
  lemma SelectedWarnings(r: ScoreResult)
    ensures var s := Select(AllWarnings(r), Fired(r));
      && (s == [] <==> !AnyWarning(r))
      && StatusGood !in s
      && (LowSavings(r.metrics.savingsRate) in s <==> r.scores.savings < 60.0)
      && (HighDebt in s <==> r.scores.debt < 70.0)
      && (LowEmergency(r.metrics.emergencyMonths) in s <==> r.scores.emergency < 80.0)
      && (LowInvestment(r.metrics.investmentRatio * 100.0) in s <==> r.scores.investment < 50.0)
  {
    var w, f := AllWarnings(r), Fired(r);
    var s := Select(w, f);
    WarningSelected(r, 0);
    WarningSelected(r, 1);
    WarningSelected(r, 2);
    WarningSelected(r, 3);
    if s != [] {
      assert s[0] in s;
      var i :| 0 <= i < 4 && f[i] && w[i] == s[0];
    }
  }

  /** The `i`th warning is selected exactly when its threshold fires: no
      other warning is equal to it. */
  lemma WarningSelected(r: ScoreResult, i: nat)
    requires i < 4
    ensures AllWarnings(r)[i] in Select(AllWarnings(r), Fired(r)) <==> Fired(r)[i]
  {
    var w, f := AllWarnings(r), Fired(r);
    if w[i] in Select(w, f) {
      var j :| 0 <= j < 4 && f[j] && w[j] == w[i];
      assert w[j].LowSavings? <==> j == 0;
      assert w[j].HighDebt? <==> j == 1;
      assert w[j].LowEmergency? <==> j == 2;
      assert i == j;
    }
  }

  // ---------------------------------------------------------------------------
  // Score bands

  /** `getScoreColor`: the CSS class of a score. */
  function ScoreColor(score: int): (c: string)
    ensures c == "excellent" <==> score >= 80
    ensures c == "good" <==> 60 <= score < 80
    ensures c == "needs-improvement" <==> score < 60
  {
    if score >= 80 then "excellent" else if score >= 60 then "good" else "needs-improvement"
  }

  /** The caption shown under the total, which uses the colour's two
      thresholds. */
  function ScoreCaption(score: int): (c: string)
    ensures c == "Excellent" <==> ScoreColor(score) == "excellent"
    ensures c == "Good" <==> ScoreColor(score) == "good"
    ensures c == "Needs Improvement" <==> ScoreColor(score) == "needs-improvement"
  {
    if score >= 80 then "Excellent" else if score >= 60 then "Good" else "Needs Improvement"
  }

  // ---------------------------------------------------------------------------
  // Form updates

  datatype Field = Income | Savings | Debt | Investments | EmergencyFund

  /** `parseFloat(value) || 0`: NaN (here `None`) and zero both become 0. */
  function ParseOrZero(parsed: Option<real>): (v: real)
    ensures parsed.Some? && parsed.value != 0.0 ==> v == parsed.value
    ensures parsed.None? ==> v == 0.0
  {
    if parsed.None? || parsed.value == 0.0 then 0.0 else parsed.value
  }

  /** `updateData`: sets one numeric field and keeps everything else. */
  function UpdateData(p: Profile, field: Field, parsed: Option<real>): (q: Profile)
    ensures q.expenses == p.expenses
    ensures q.income == (if field == Income then ParseOrZero(parsed) else p.income)
    ensures q.savings == (if field == Savings then ParseOrZero(parsed) else p.savings)
    ensures q.debt == (if field == Debt then ParseOrZero(parsed) else p.debt)
    ensures q.investments == (if field == Investments then ParseOrZero(parsed) else p.investments)
    ensures q.emergencyFund == (if field == EmergencyFund then ParseOrZero(parsed) else p.emergencyFund)
  {
    var v := ParseOrZero(parsed);
    match field
    case Income => p.(income := v)
    case Savings => p.(savings := v)
    case Debt => p.(debt := v)
    case Investments => p.(investments := v)
    case EmergencyFund => p.(emergencyFund := v)
  }

  /** The value of the first entry for `category`, or 0 when there is none. */
  function ExpenseOf(es: seq<(string, real)>, category: string): real {
    if es == [] then 0.0 else if es[0].0 == category then es[0].1 else ExpenseOf(es[1..], category)
  }

  /** Some entry is for `category`. */
  predicate HasCategory(es: seq<(string, real)>, category: string) {
    exists k :: 0 <= k < |es| && es[k].0 == category
  }

  /** Object-key assignment: replaces the value of an existing key in place,
      or appends a new key at the end. */
  function SetExpense(es: seq<(string, real)>, category: string, v: real): (r: seq<(string, real)>)
    ensures ExpenseOf(r, category) == v
    ensures forall c :: c != category ==> ExpenseOf(r, c) == ExpenseOf(es, c)
    ensures |r| == |es| + (if HasCategory(es, category) then 0 else 1)
    ensures forall k :: 0 <= k < |es| ==> r[k].0 == es[k].0
  {
    if es == [] then [(category, v)]
    else if es[0].0 == category then [(category, v)] + es[1..]
    else [es[0]] + SetExpense(es[1..], category, v)
  }

  /** `updateExpense`: sets one category to the parsed value (or 0); every
      other category and every other field keeps its value. */
  function UpdateExpense(p: Profile, category: string, parsed: Option<real>): (q: Profile)
    ensures q.(expenses := p.expenses) == p
    ensures ExpenseOf(q.expenses, category) == ParseOrZero(parsed)
    ensures forall c :: c != category ==> ExpenseOf(q.expenses, c) == ExpenseOf(p.expenses, c)
  {
    p.(expenses := SetExpense(p.expenses, category, ParseOrZero(parsed)))
  }

  /** Setting a category changes the total by exactly the difference between
      the new and the old value of that category. */
  lemma {:induction false} SetExpenseTotal(es: seq<(string, real)>, category: string, v: real)
    ensures SumBy(SetExpense(es, category, v), ExpenseValue) == SumBy(es, ExpenseValue) - ExpenseOf(es, category) + v
  {
    if es == [] {
      SumBySingle((category, v), ExpenseValue);
    } else {
      assert es == [es[0]] + es[1..];
      SumByCons(es[0], es[1..], ExpenseValue);
      if es[0].0 == category {
        SumByCons((category, v), es[1..], ExpenseValue);
      } else {
        SetExpenseTotal(es[1..], category, v);
        SumByCons(es[0], SetExpense(es[1..], category, v), ExpenseValue);
      }
    }
  }

  lemma UpdateExpenseTotal(p: Profile, category: string, parsed: Option<real>)
    ensures TotalExpenses(UpdateExpense(p, category, parsed))
            == TotalExpenses(p) - ExpenseOf(p.expenses, category) + ParseOrZero(parsed)
  {
    SetExpenseTotal(p.expenses, category, ParseOrZero(parsed));
  }

  // ---------------------------------------------------------------------------
  // The default profile

  lemma DefaultTotalExpenses()
    ensures TotalExpenses(DefaultProfile) == 3000.0
  {
    var es := DefaultProfile.expenses;
    assert es[..5][..4][..3][..2][..1][..0] == [];
    assert SumBy(es[..1], ExpenseValue) == 1200.0;
    assert SumBy(es[..2], ExpenseValue) == 1800.0 by { assert es[..2][..1] == es[..1]; }
    assert SumBy(es[..3], ExpenseValue) == 2100.0 by { assert es[..3][..2] == es[..2]; }
    assert SumBy(es[..4], ExpenseValue) == 2300.0 by { assert es[..4][..3] == es[..3]; }
    assert SumBy(es[..5], ExpenseValue) == 2700.0 by { assert es[..5][..4] == es[..4]; }
    assert es[..6] == es;
  }

  /** The default profile scores 43: savings 80, debt 0, emergency 100/3,
      investment 50; only the debt and emergency warnings fire (an investment
      score of exactly 50 is not below 50). */
  lemma DefaultProfileScore()
    ensures Computable(DefaultProfile)
    ensures CalculateScore(DefaultProfile).scores == SubScores(80.0, 0.0, 100.0 / 3.0, 50.0)
    ensures CalculateScore(DefaultProfile).total == 43
    ensures
      var r := CalculateScore(DefaultProfile);
      !(r.scores.savings < 60.0) && r.scores.debt < 70.0 && r.scores.emergency < 80.0 && !(r.scores.investment < 50.0)
  {
    DefaultTotalExpenses();
    var r := CalculateScore(DefaultProfile);
    assert r.metrics == Metrics(40.0, 12.0, 5.0 / 3.0, 0.5);
    assert Weighted(r.scores) == 24.0 + 20.0 / 3.0 + 12.5;
  }

  method DefaultProfileAdvice() returns (advice: seq<Advice>)
    ensures advice == [HighDebt, LowEmergency(5.0 / 3.0)]
  {
    DefaultProfileScore();
    var r := CalculateScore(DefaultProfile);
    advice := GetAdvice(r);
    var w, f := AllWarnings(r), Fired(r);
    assert f == [false, true, true, false];
    assert r.metrics.emergencyMonths == 5.0 / 3.0;
    assert Select(w[..1], f[..1]) == [] by { assert w[..1][..0] == [] && f[..1][..0] == []; }
    assert Select(w[..2], f[..2]) == [w[1]] by { assert w[..2][..1] == w[..1] && f[..2][..1] == f[..1]; }
    assert Select(w[..3], f[..3]) == [w[1], w[2]] by { assert w[..3][..2] == w[..2] && f[..3][..2] == f[..2]; }
    assert Select(w, f) == [w[1], w[2]] by { assert w[..3] == w[..|w| - 1] && f[..3] == f[..|f| - 1]; }
  }
}
