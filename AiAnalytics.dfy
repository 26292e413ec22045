/** The back end's analytics service: the rule-based fraud check of one
    transaction against the user's history, the spending-pattern summary and
    the category fallback.  The anomaly model's decision value, the language
    model's verdicts and the current hour are parameters. */
module AiAnalytics {
  import opened Text
  import opened Seqs

  // ---------------------------------------------------------------------------
  // Inputs

  /** A history entry; `amount` is `None` when the key is missing. */
  datatype PastTransaction = PastTransaction(amount: Option<real>, toAccountNumber: Option<string>)

  /** The transaction under test. */
  datatype Candidate = Candidate(amount: Option<real>, toAccountNumber: Option<string>, description: Option<string>)

  /** What the isolation-forest step gives: its decision value for the
      candidate, or the message of the exception it raised. */
  datatype Anomaly = AnomalyScore(score: real) | ModelFailed(message: string)

  datatype FraudReport = FraudReport(fraudScore: int, isFraudulent: bool, alerts: seq<string>, recommendation: string)

  /** A text field that is present and not empty (Python truthiness). */
  predicate Truthy(field: Option<string>) {
    field.Some? && field.value != ""
  }

  /** `s[-n:]`: the last `n` elements, or all of them when there are fewer. */
  function Last<T>(s: seq<T>, n: nat): (r: seq<T>)
    ensures |r| == if |s| <= n then |s| else n
    ensures r == s[|s| - |r|..]
  {
    if |s| <= n then s else s[|s| - n..]
  }

  predicate AmountsPresent(s: seq<PastTransaction>) {
    forall i :: 0 <= i < |s| ==> s[i].amount.Some?
  }

  function AmountOf(t: PastTransaction): real {
    t.amount.GetOr(0.0)
  }

  /** `np.mean` of the amounts. */
  function MeanAmount(s: seq<PastTransaction>): real
    requires |s| > 0
  {
    SumBy(s, AmountOf) / (|s| as real)
  }

  /** The check fails with a `KeyError` on 'amount': the candidate has no
      amount, one of the last ten entries has none (feature extraction and
      the mean), or, with ten or more entries, any entry has none (the
      feature table of the anomaly model). */
  predicate AmountMissing(tx: Candidate, history: seq<PastTransaction>) {
    || tx.amount.None?
    || !AmountsPresent(Last(history, 10))
    || (|history| >= 10 && !AmountsPresent(history))
  }

  /** The recipients of `entries`, in order, skipping empty ones. */
  function Recipients(entries: seq<PastTransaction>): (r: seq<string>)
    ensures forall a :: a in r <==> a != "" && exists i :: 0 <= i < |entries| && entries[i].toAccountNumber == Some(a)
  {
    if entries == [] then []
    else
      var rest := Recipients(entries[1..]);
      assert forall i :: 1 <= i < |entries| ==> entries[i] == entries[1..][i - 1];
      if Truthy(entries[0].toAccountNumber) then [entries[0].toAccountNumber.value] + rest else rest
  }

  // ---------------------------------------------------------------------------
  // The rules

  datatype Rule =
    | LargeAmount
    | OddHour
    | FirstTimeRecipient
    | PatternAnomaly
    | DescriptionSuspicious
    | DescriptionPossiblySuspicious

  function Points(rule: Rule): int {
    match rule
    case LargeAmount => 30
    case OddHour => 10
    case FirstTimeRecipient => 20
    case PatternAnomaly => 40
    case DescriptionSuspicious => 50
    case DescriptionPossiblySuspicious => 25
  }

  function AlertText(rule: Rule): string {
    match rule
    case LargeAmount => "Unusually large transaction amount"
    case OddHour => "Transaction at unusual hour"
    case FirstTimeRecipient => "First time transacting with this recipient"
    case PatternAnomaly => "Transaction pattern anomaly detected"
    case DescriptionSuspicious => "AI flagged description as suspicious"
    case DescriptionPossiblySuspicious => "AI flagged description as potentially suspicious"
  }

  /** The amount is more than five times the positive mean of the last ten
      history amounts. */
  predicate IsLargeAmount(tx: Candidate, history: seq<PastTransaction>) {
    history != [] && MeanAmount(Last(history, 10)) > 0.0
    && tx.amount.GetOr(0.0) > MeanAmount(Last(history, 10)) * 5.0
  }

  predicate IsOddHour(hour: int) {
    hour < 6 || hour > 22
  }

  /** The candidate names a recipient that none of the last twenty history
      entries was sent to. */
  predicate IsNewRecipient(tx: Candidate, history: seq<PastTransaction>) {
    Truthy(tx.toAccountNumber) && tx.toAccountNumber.value !in Recipients(Last(history, 20))
  }

  /** The anomaly model runs only on ten or more entries, and flags a
      decision value below -0.1. */
  predicate IsAnomalous(history: seq<PastTransaction>, anomaly: Anomaly) {
    |history| >= 10 && anomaly.AnomalyScore? && anomaly.score < -0.1
  }

  /** The language model's answer on a non-empty description, stripped and
      upper-cased, is `word`; `verdict` is `None` when the call raised. */
  predicate DescriptionVerdict(tx: Candidate, verdict: Option<string>, word: string) {
    Truthy(tx.description) && verdict.Some? && ToUpper(PyStrip(verdict.value)) == word
  }

  function When(fires: bool, rule: Rule): seq<Rule> {
    if fires then [rule] else []
  }

  /** The rules that fire, in the order they are checked, given which of
      the six conditions hold. */
  function FiredOf(large: bool, odd: bool, newRecipient: bool, anomalous: bool, yes: bool, possible: bool): seq<Rule> {
    When(large, LargeAmount) + When(odd, OddHour) + When(newRecipient, FirstTimeRecipient)
    + When(anomalous, PatternAnomaly) + When(yes, DescriptionSuspicious) + When(possible, DescriptionPossiblySuspicious)
  }

  function Fired(tx: Candidate, history: seq<PastTransaction>, hour: int, anomaly: Anomaly, verdict: Option<string>): seq<Rule> {
    FiredOf(IsLargeAmount(tx, history), IsOddHour(hour), IsNewRecipient(tx, history), IsAnomalous(history, anomaly),
            DescriptionVerdict(tx, verdict, "YES"), DescriptionVerdict(tx, verdict, "POSSIBLE"))
  }

  /** The unclamped score: the points of the rules that fired. */
  function Total(fired: seq<Rule>): int {
    if fired == [] then 0 else Total(fired[..|fired| - 1]) + Points(fired[|fired| - 1])
  }

  function AlertsOf(fired: seq<Rule>): (r: seq<string>)
    ensures |r| == |fired|
    ensures forall i :: 0 <= i < |fired| ==> r[i] == AlertText(fired[i])
  {
    seq(|fired|, i requires 0 <= i < |fired| => AlertText(fired[i]))
  }

  lemma AlertsAppend(a: seq<Rule>, b: seq<Rule>)
    ensures AlertsOf(a + b) == AlertsOf(a) + AlertsOf(b)
  {
  }

  lemma {:induction false} TotalAppend(a: seq<Rule>, b: seq<Rule>)
    ensures Total(a + b) == Total(a) + Total(b)
    ensures AlertsOf(a + b) == AlertsOf(a) + AlertsOf(b)
    decreases |b|
  {
    if b == [] {
      assert a + b == a;
    } else {
      assert (a + b)[..|a + b| - 1] == a + b[..|b| - 1];
      TotalAppend(a, b[..|b| - 1]);
    }
    AlertsAppend(a, b);
  }

  /** The score and alerts of the rules that fire, rule by rule. */
  lemma FiredOfSums(large: bool, odd: bool, newRecipient: bool, anomalous: bool, yes: bool, possible: bool)
    ensures var w1, w2, w3 := When(large, LargeAmount), When(odd, OddHour), When(newRecipient, FirstTimeRecipient);
            var w4, w5, w6 := When(anomalous, PatternAnomaly), When(yes, DescriptionSuspicious), When(possible, DescriptionPossiblySuspicious);
            var f := FiredOf(large, odd, newRecipient, anomalous, yes, possible);
            && Total(f) == Total(w1) + Total(w2) + Total(w3) + Total(w4) + Total(w5) + Total(w6)
            && AlertsOf(f) == AlertsOf(w1) + AlertsOf(w2) + AlertsOf(w3) + AlertsOf(w4) + AlertsOf(w5) + AlertsOf(w6)
  {
    var w1, w2, w3 := When(large, LargeAmount), When(odd, OddHour), When(newRecipient, FirstTimeRecipient);
    var w4, w5, w6 := When(anomalous, PatternAnomaly), When(yes, DescriptionSuspicious), When(possible, DescriptionPossiblySuspicious);
    TotalAppend(w1, w2);
    TotalAppend(w1 + w2, w3);
    TotalAppend(w1 + w2 + w3, w4);
    TotalAppend(w1 + w2 + w3 + w4, w5);
    TotalAppend(w1 + w2 + w3 + w4 + w5, w6);
  }

  /** One rule of the check: when it fires, its points go onto the score and
      its alert onto the list. */
  method Flag(score: int, alerts: seq<string>, fires: bool, rule: Rule) returns (score': int, alerts': seq<string>)
    ensures score' == score + Total(When(fires, rule))
    ensures alerts' == alerts + AlertsOf(When(fires, rule))
  {
    if fires {
      assert [rule][..0] == [];
      score', alerts' := score + Points(rule), alerts + [AlertText(rule)];
    } else {
      score', alerts' := score, alerts;
    }
  }

  /** The report of a check that ran with unclamped score `total`: the
      score capped at 100, fraudulent above 70, a review asked for above 50. */
  function Outcome(total: int, alerts: seq<string>): FraudReport {
    FraudReport(if total < 100 then total else 100, total > 70, alerts,
                if total > 50 then "Review transaction" else "Approve")
  }

  /** The report of the rules that fired. */
  function Report(fired: seq<Rule>): FraudReport {
    Outcome(Total(fired), AlertsOf(fired))
  }

  /** The report of a check that raised. */
  function ErrorReport(message: string): (r: FraudReport)
    ensures r.fraudScore == 0 && !r.isFraudulent && r.recommendation == "Review"
    ensures r.alerts == ["Error in fraud detection: " + message]
  {
    FraudReport(0, false, ["Error in fraud detection: " + message], "Review")
  }

  /** The scoring half of `detect_fraud`: rule by rule, each rule that
      fires adds its points to the score and its alert to the list. */
  method ScoreRules(large: bool, odd: bool, newRecipient: bool, anomalous: bool, yes: bool, possible: bool)
    returns (r: FraudReport)
    ensures r == Report(FiredOf(large, odd, newRecipient, anomalous, yes, possible))
  {
    var fraudScore := 0;
    var alerts: seq<string> := [];
    fraudScore, alerts := Flag(fraudScore, alerts, large, LargeAmount);
    fraudScore, alerts := Flag(fraudScore, alerts, odd, OddHour);
    fraudScore, alerts := Flag(fraudScore, alerts, newRecipient, FirstTimeRecipient);
    fraudScore, alerts := Flag(fraudScore, alerts, anomalous, PatternAnomaly);
    fraudScore, alerts := Flag(fraudScore, alerts, yes, DescriptionSuspicious);
    fraudScore, alerts := Flag(fraudScore, alerts, possible, DescriptionPossiblySuspicious);
    assert [] + AlertsOf(When(large, LargeAmount)) == AlertsOf(When(large, LargeAmount));
    FiredOfSums(large, odd, newRecipient, anomalous, yes, possible);
    r := Outcome(fraudScore, alerts);
  }

  /** `detect_fraud`: a missing amount or a failing anomaly model ends the
      check with the error report; otherwise the six rule conditions are
      evaluated as the source does and scored. */
  method DetectFraud(tx: Candidate, history: seq<PastTransaction>, hour: int, anomaly: Anomaly, verdict: Option<string>)
    returns (r: FraudReport)
    ensures AmountMissing(tx, history) ==> r == ErrorReport("'amount'")
    ensures !AmountMissing(tx, history) && |history| >= 10 && anomaly.ModelFailed? ==> r == ErrorReport(anomaly.message)
    ensures !AmountMissing(tx, history) && !(|history| >= 10 && anomaly.ModelFailed?) ==>
              r == Report(Fired(tx, history, hour, anomaly, verdict))
  {
    if AmountMissing(tx, history) {
      return ErrorReport("'amount'");
    }
    if |history| >= 10 && anomaly.ModelFailed? {
      return ErrorReport(anomaly.message);
    }
    r := ScoreRules(IsLargeAmount(tx, history), IsOddHour(hour), IsNewRecipient(tx, history),
                    IsAnomalous(history, anomaly),
                    DescriptionVerdict(tx, verdict, "YES"), DescriptionVerdict(tx, verdict, "POSSIBLE"));
  }

  // ---------------------------------------------------------------------------
  // Properties of the check

  /** Whether `rule`'s condition is among those that hold. */
  predicate Holds(rule: Rule, large: bool, odd: bool, newRecipient: bool, anomalous: bool, yes: bool, possible: bool) {
    match rule
    case LargeAmount => large
    case OddHour => odd
    case FirstTimeRecipient => newRecipient
    case PatternAnomaly => anomalous
    case DescriptionSuspicious => yes
    case DescriptionPossiblySuspicious => possible
  }

  lemma FiredOfExactly(rule: Rule, large: bool, odd: bool, newRecipient: bool, anomalous: bool, yes: bool, possible: bool)
    ensures rule in FiredOf(large, odd, newRecipient, anomalous, yes, possible)
            <==> Holds(rule, large, odd, newRecipient, anomalous, yes, possible)
  {
    var w1, w2, w3 := When(large, LargeAmount), When(odd, OddHour), When(newRecipient, FirstTimeRecipient);
    var w4, w5, w6 := When(anomalous, PatternAnomaly), When(yes, DescriptionSuspicious), When(possible, DescriptionPossiblySuspicious);
    assert FiredOf(large, odd, newRecipient, anomalous, yes, possible) == w1 + w2 + w3 + w4 + w5 + w6;
    assert rule in w1 + w2 + w3 + w4 + w5 + w6 <==> rule in w1 || rule in w2 || rule in w3 || rule in w4 || rule in w5 || rule in w6;
  }

  /** Each rule fires exactly under its own condition. */
  lemma FiredExactly(tx: Candidate, history: seq<PastTransaction>, hour: int, anomaly: Anomaly, verdict: Option<string>)
    ensures var f := Fired(tx, history, hour, anomaly, verdict);
            && (LargeAmount in f <==> IsLargeAmount(tx, history))
            && (OddHour in f <==> IsOddHour(hour))
            && (FirstTimeRecipient in f <==> IsNewRecipient(tx, history))
            && (PatternAnomaly in f <==> IsAnomalous(history, anomaly))
            && (DescriptionSuspicious in f <==> DescriptionVerdict(tx, verdict, "YES"))
            && (DescriptionPossiblySuspicious in f <==> DescriptionVerdict(tx, verdict, "POSSIBLE"))
  {
    var large, odd, newRecipient := IsLargeAmount(tx, history), IsOddHour(hour), IsNewRecipient(tx, history);
    var anomalous := IsAnomalous(history, anomaly);
    var yes, possible := DescriptionVerdict(tx, verdict, "YES"), DescriptionVerdict(tx, verdict, "POSSIBLE");
    FiredOfExactly(LargeAmount, large, odd, newRecipient, anomalous, yes, possible);
    FiredOfExactly(OddHour, large, odd, newRecipient, anomalous, yes, possible);
    FiredOfExactly(FirstTimeRecipient, large, odd, newRecipient, anomalous, yes, possible);
    FiredOfExactly(PatternAnomaly, large, odd, newRecipient, anomalous, yes, possible);
    FiredOfExactly(DescriptionSuspicious, large, odd, newRecipient, anomalous, yes, possible);
    FiredOfExactly(DescriptionPossiblySuspicious, large, odd, newRecipient, anomalous, yes, possible);
  }

  /** No rule gives more than 50 points, so a score of `k` rules is at most
      `50 * k`. */
  lemma {:induction false} TotalBounds(fired: seq<Rule>)
    ensures 0 <= Total(fired) <= 50 * |fired|
    decreases |fired|
  {
    if fired != [] {
      TotalBounds(fired[..|fired| - 1]);
    }
  }

  /** The reported score lies in [0, 100]; fraud is only reported with a
      score above 70 and a request for review; one alert per rule fired, in
      rule order. */
  lemma ReportFacts(fired: seq<Rule>)
    ensures 0 <= Report(fired).fraudScore <= 100
    ensures Report(fired).isFraudulent ==> Report(fired).fraudScore > 70 && Report(fired).recommendation == "Review transaction"
    ensures Report(fired).fraudScore <= Total(fired)
    ensures |Report(fired).alerts| == |fired|
  {
    TotalBounds(fired);
  }

  /** No single rule makes a transaction fraudulent: it takes at least two. */
  lemma FraudNeedsTwoRules(tx: Candidate, history: seq<PastTransaction>, hour: int, anomaly: Anomaly, verdict: Option<string>)
    ensures Report(Fired(tx, history, hour, anomaly, verdict)).isFraudulent ==> |Fired(tx, history, hour, anomaly, verdict)| >= 2
  {
    TotalBounds(Fired(tx, history, hour, anomaly, verdict));
  }

  /** With fewer than ten history entries the anomaly model is never
      consulted, and at most one description rule fires. */
  lemma ShortHistoryNoAnomaly(tx: Candidate, history: seq<PastTransaction>, hour: int, anomaly: Anomaly, verdict: Option<string>)
    requires |history| < 10
    ensures PatternAnomaly !in Fired(tx, history, hour, anomaly, verdict)
    ensures !(DescriptionSuspicious in Fired(tx, history, hour, anomaly, verdict)
              && DescriptionPossiblySuspicious in Fired(tx, history, hour, anomaly, verdict))
  {
    FiredExactly(tx, history, hour, anomaly, verdict);
  }

  // ---------------------------------------------------------------------------
  // Spending patterns

  datatype Spend = Spend(amount: real, category: Option<string>)

  datatype SpendingReport =
    | NoData(insights: string)
    | Patterns(totalSpent: real, avgMonthly: real, categoryBreakdown: map<string, real>)

  /** What an entry spends: the magnitude of a negative amount, else 0. */
  function Outflow(t: Spend): real {
    if t.amount < 0.0 then -t.amount else 0.0
  }

  /** The money spent: minus the sum of the negative amounts. */
  function Spent(txs: seq<Spend>): (r: real)
    ensures r >= 0.0
  {
    SumByNonNegative(txs, Outflow);
    SumBy(txs, Outflow)
  }

  function InCategory(c: string): Spend -> bool {
    (t: Spend) => t.category == Some(c)
  }

  function Categories(txs: seq<Spend>): set<string> {
    set t | t in txs && t.category.Some? :: t.category.value
  }

  /** `analyze_spending_patterns`: nothing but a notice on an empty list;
      otherwise the money spent, a third of it per month, and the money spent
      in each category that occurs (entries without one are not grouped). */
  function AnalyzeSpendingPatterns(txs: seq<Spend>): (r: SpendingReport)
    ensures txs == [] <==> r == NoData("No transaction data available")
    ensures txs != [] ==> r.Patterns? && r.totalSpent == Spent(txs) && r.totalSpent >= 0.0
                          && r.avgMonthly * 3.0 == r.totalSpent
    ensures txs != [] ==> r.categoryBreakdown.Keys == Categories(txs)
    ensures txs != [] ==> forall c :: c in r.categoryBreakdown ==> r.categoryBreakdown[c] == Spent(Filter(txs, InCategory(c)))
  {
    if txs == [] then NoData("No transaction data available")
    else
      var total := Spent(txs);
      Patterns(total, total / 3.0, map c | c in Categories(txs) :: Spent(Filter(txs, InCategory(c))))
  }

  /** What `analyze_spending_patterns` does as written: the insight text
      joins the top `(category, total)` pairs with `', '.join`, which raises
      a TypeError as soon as there is one pair to join. */
  datatype SpendingOutcome = Returned(report: SpendingReport) | RaisedTypeError

  function AnalyzeSpendingPatternsAsWritten(txs: seq<Spend>): (r: SpendingOutcome)
    ensures r.RaisedTypeError? <==> Categories(txs) != {}
    ensures r.Returned? ==> r.report == AnalyzeSpendingPatterns(txs)
    ensures r.Returned? && txs != [] ==> r.report.categoryBreakdown == map[]
  {
    if Categories(txs) != {} then RaisedTypeError else Returned(AnalyzeSpendingPatterns(txs))
  }

  /** A single categorised expense already makes the as-written analysis
      raise, while the intended analysis reports it under its category. */
  lemma CategorisedHistoryRaises()
    ensures AnalyzeSpendingPatternsAsWritten([Spend(-5.0, Some("Food"))]).RaisedTypeError?
    ensures AnalyzeSpendingPatterns([Spend(-5.0, Some("Food"))]).categoryBreakdown == map["Food" := 5.0]
  {
    var txs := [Spend(-5.0, Some("Food"))];
    assert "Food" in Categories(txs);
    assert Categories(txs) == {"Food"};
    assert Filter(txs, InCategory("Food")) == txs;
  }

  /** Dropping entries never raises the money spent. */
  lemma {:induction false} FilterSpendsLess(txs: seq<Spend>, p: Spend -> bool)
    ensures Spent(Filter(txs, p)) <= Spent(txs)
    decreases |txs|
  {
    if txs != [] {
      FilterSpendsLess(txs[1..], p);
      assert txs == [txs[0]] + txs[1..];
      SumByCons(txs[0], txs[1..], Outflow);
      if p(txs[0]) {
        SumByCons(txs[0], Filter(txs[1..], p), Outflow);
      }
    }
  }

  /** Every category's spending lies between 0 and the total spent. */
  lemma CategoryWithinTotal(txs: seq<Spend>, c: string)
    requires txs != [] && c in AnalyzeSpendingPatterns(txs).categoryBreakdown
    ensures 0.0 <= AnalyzeSpendingPatterns(txs).categoryBreakdown[c] <= AnalyzeSpendingPatterns(txs).totalSpent
  {
    FilterSpendsLess(txs, InCategory(c));
  }

  // ---------------------------------------------------------------------------
  // Category fallback

  /** `categorize_transaction`: the model's answer stripped and lower-cased,
      or "other" when the call raised (`reply` is `None`). */
  function CategorizeTransaction(reply: Option<string>): (r: string)
    ensures reply.None? ==> r == "other"
    ensures reply.Some? ==> |r| == |PyStrip(reply.value)|
    ensures reply.Some? ==> forall i :: 0 <= i < |r| ==> !('A' <= r[i] <= 'Z') && LowerChar(PyStrip(reply.value)[i]) == r[i]
  {
    if reply.None? then "other" else ToLower(PyStrip(reply.value))
  }
}
