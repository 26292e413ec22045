/** The client-side spending summary of the AI service: money spent and
    received, spending per category, the three largest categories, the
    insight sentences built from them, and the canned quick replies.  The
    currency formatter is a parameter; amounts are the parsed numbers. */
module SpendingInsights {
  import opened Text
  import opened Seqs

  datatype SpendingTx = SpendingTx(amount: real, category: Option<string>)

  /** Per-category spending, in the order the categories first appear. */
  type Categories = seq<(string, real)>

  datatype Pattern =
    | NoData(message: string)
    | Summary(totalSpent: real, totalReceived: real, topCategories: Categories,
              averageMonthlySpend: real, insights: string)

  const NoDataMessage: string := "No transaction data available."
  const Uncategorized: string := "uncategorized"
  const SignificantShare: real := 0.4
  const SignificantSentence: string :=
    "Consider reviewing this category as it represents a significant portion of your spending."

  /** A missing or empty category counts as "uncategorized". */
  function CategoryName(c: Option<string>): (r: string)
    ensures r != ""
  {
    if c.None? || c.value == "" then Uncategorized else c.value
  }

  function SpentOf(tx: SpendingTx): real {
    if tx.amount < 0.0 then -tx.amount else 0.0
  }

  function ReceivedOf(tx: SpendingTx): real {
    if tx.amount < 0.0 then 0.0 else tx.amount
  }

  /** Money out: the magnitudes of the negative amounts. */
  function TotalSpent(txs: seq<SpendingTx>): real {
    SumBy(txs, SpentOf)
  }

  /** Money in: every amount that is not negative (zero included). */
  function TotalReceived(txs: seq<SpendingTx>): real {
    SumBy(txs, ReceivedOf)
  }

  function Amount(entry: (string, real)): real {
    entry.1
  }

  /** The category names, in order. */
  function Names(cats: Categories): (r: seq<string>)
    ensures |r| == |cats| && forall i :: 0 <= i < |cats| ==> r[i] == cats[i].0
  {
    if cats == [] then [] else [cats[0].0] + Names(cats[1..])
  }

  /** No category name occurs twice. */
  predicate DistinctKeys(cats: Categories) {
    cats == [] || (cats[0].0 !in Names(cats[1..]) && DistinctKeys(cats[1..]))
  }

  /** Adds `amount` to the total of `name`, appending a new entry for a
      category not seen before. */
  function AddTo(cats: Categories, name: string, amount: real): (r: Categories)
    decreases |cats|
  {
    if cats == [] then [(name, amount)]
    else if cats[0].0 == name then [(name, cats[0].1 + amount)] + cats[1..]
    else [cats[0]] + AddTo(cats[1..], name, amount)
  }

  /** Booking an amount raises the sum of the totals by exactly that amount. */
  lemma {:induction false} AddToSum(cats: Categories, name: string, amount: real)
    ensures SumBy(AddTo(cats, name, amount), Amount) == SumBy(cats, Amount) + amount
    decreases |cats|
  {
    if cats == [] {
      SumBySingle((name, amount), Amount);
    } else {
      assert cats == [cats[0]] + cats[1..];
      SumByCons(cats[0], cats[1..], Amount);
      if cats[0].0 == name {
        SumByCons((name, cats[0].1 + amount), cats[1..], Amount);
      } else {
        AddToSum(cats[1..], name, amount);
        SumByCons(cats[0], AddTo(cats[1..], name, amount), Amount);
      }
    }
  }

  /** Booking under `name` adds `name` to the category names and no other. */
  lemma {:induction false} AddToKeys(cats: Categories, name: string, amount: real)
    ensures forall k :: k in Names(AddTo(cats, name, amount)) <==> k in Names(cats) || k == name
    decreases |cats|
  {
    if cats != [] {
      if cats[0].0 == name {
        assert Names(AddTo(cats, name, amount)) == [name] + Names(cats[1..]);
      } else {
        AddToKeys(cats[1..], name, amount);
        assert Names(AddTo(cats, name, amount)) == [cats[0].0] + Names(AddTo(cats[1..], name, amount));
      }
      assert Names(cats) == [cats[0].0] + Names(cats[1..]);
    }
  }

  /** Booking keeps one entry per category. */
  lemma {:induction false} AddToDistinct(cats: Categories, name: string, amount: real)
    requires DistinctKeys(cats)
    ensures DistinctKeys(AddTo(cats, name, amount))
    decreases |cats|
  {
    if cats != [] {
      if cats[0].0 == name {
        assert AddTo(cats, name, amount)[1..] == cats[1..];
      } else {
        AddToDistinct(cats[1..], name, amount);
        AddToKeys(cats[1..], name, amount);
        assert AddTo(cats, name, amount)[1..] == AddTo(cats[1..], name, amount);
      }
    }
  }

  /** The category map after a list of transactions: only negative amounts
      are booked, each under its category, by magnitude. */
  function CategoryTotals(txs: seq<SpendingTx>): (r: Categories)
    ensures DistinctKeys(r)
    ensures SumBy(r, Amount) == TotalSpent(txs)
  {
    if txs == [] then []
    else
      var n := |txs| - 1;
      var tx := txs[n];
      var before := CategoryTotals(txs[..n]);
      SpentStep(txs, n);
      assert txs[..n + 1] == txs;
      BookStep(before, tx);
      Book(before, tx)
  }

  /** Books one transaction: a negative amount, by magnitude, under its
      category; anything else leaves the map as it is. */
  function Book(cats: Categories, tx: SpendingTx): Categories {
    if tx.amount < 0.0 then AddTo(cats, CategoryName(tx.category), -tx.amount) else cats
  }

  /** Booking one transaction keeps one entry per category and raises the
      sum of the totals by what the transaction spent. */
  lemma BookStep(before: Categories, tx: SpendingTx)
    requires DistinctKeys(before)
    ensures DistinctKeys(Book(before, tx))
    ensures SumBy(Book(before, tx), Amount) == SumBy(before, Amount) + SpentOf(tx)
  {
    if tx.amount < 0.0 {
      var name := CategoryName(tx.category);
      AddToSum(before, name, -tx.amount);
      AddToDistinct(before, name, -tx.amount);
    }
  }

  /** One more transaction adds its own part to each running total. */
  lemma SpentStep(txs: seq<SpendingTx>, i: nat)
    requires i < |txs|
    ensures TotalSpent(txs[..i + 1]) == TotalSpent(txs[..i]) + SpentOf(txs[i])
    ensures TotalReceived(txs[..i + 1]) == TotalReceived(txs[..i]) + ReceivedOf(txs[i])
  {
    assert txs[..i + 1][..i] == txs[..i];
  }

  /** The largest categories: at most three, by non-increasing amount, ties
      in first-appearance order (JavaScript's stable `sort`, then `slice(0, 3)`). */
  function TopCategories(cats: Categories): (r: Categories)
    ensures |r| <= 3 && |r| <= |cats|
    ensures SortedDesc(r, Amount)
  {
    Take(SortDesc(cats, Amount), 3)
  }

  /** The top categories are taken from the map, and every category left out
      is no larger than the third one shown. */
  lemma TopCategoriesFromMap(cats: Categories)
    ensures var r := TopCategories(cats);
            && (forall i :: 0 <= i < |r| ==> r[i] in cats)
            && (forall c :: c in cats && c !in r ==> |r| == 3 && c.1 <= r[2].1)
  {
    var sorted := SortDesc(cats, Amount);
    var r := TopCategories(cats);
    forall i | 0 <= i < |r| ensures r[i] in cats {
      assert r[i] == sorted[i];
      assert sorted[i] in multiset(sorted);
    }
    forall c | c in cats && c !in r ensures |r| == 3 && c.1 <= r[2].1 {
      assert c in multiset(sorted);
      var k :| 0 <= k < |sorted| && sorted[k] == c;
      assert r[2] == sorted[2];
    }
  }

  // ---------------------------------------------------------------------------
  // Insights

  function TopSentence(entry: (string, real), fmt: real -> string): string {
    "Your top spending category is " + entry.0 + " (" + fmt(entry.1) + ")."
  }

  function SecondSentence(entry: (string, real), fmt: real -> string): string {
    "You also spend " + fmt(entry.1) + " on " + entry.0 + "."
  }

  /** JavaScript's `amount / totalSpent > 0.4`: dividing by zero gives
      Infinity for a positive amount and NaN (never greater) otherwise. */
  predicate Significant(amount: real, totalSpent: real) {
    if totalSpent != 0.0 then amount / totalSpent > SignificantShare else amount > 0.0
  }

  /** The insight sentences in the order they are pushed: the top category,
      the warning when it takes more than 40% of the spending, then the
      second category. */
  function InsightSentences(top: Categories, totalSpent: real, fmt: real -> string): (s: seq<string>)
    ensures top == [] <==> s == []
    ensures |s| == (if top != [] then 1 else 0)
                   + (if top != [] && Significant(top[0].1, totalSpent) then 1 else 0)
                   + (if |top| >= 2 then 1 else 0)
    ensures top != [] ==> s[0] == TopSentence(top[0], fmt)
    ensures top != [] && Significant(top[0].1, totalSpent) ==> s[1] == SignificantSentence
    ensures |top| >= 2 ==> s[|s| - 1] == SecondSentence(top[1], fmt)
  {
    (if top != [] then [TopSentence(top[0], fmt)] else [])
    + (if top != [] && Significant(top[0].1, totalSpent) then [SignificantSentence] else [])
    + (if |top| >= 2 then [SecondSentence(top[1], fmt)] else [])
  }

  /** `generateSpendingInsights`: pushes the sentences one by one and joins
      them with single spaces. */
  method GenerateSpendingInsights(top: Categories, totalSpent: real, fmt: real -> string) returns (text: string)
    ensures text == Join(InsightSentences(top, totalSpent, fmt), " ")
    ensures top == [] ==> text == ""
  {
    var insights: seq<string> := [];
    if |top| > 0 {
      insights := insights + [TopSentence(top[0], fmt)];
      if Significant(top[0].1, totalSpent) {
        insights := insights + [SignificantSentence];
      }
    }
    if |top| >= 2 {
      insights := insights + [SecondSentence(top[1], fmt)];
    }
    assert insights == InsightSentences(top, totalSpent, fmt);
    text := Join(insights, " ");
  }

  // ---------------------------------------------------------------------------
  // The summary

  /** The `forEach` pass: books every negative amount under its category
      and adds up money out and money in. */
  method Accumulate(txs: seq<SpendingTx>) returns (categories: Categories, totalSpent: real, totalReceived: real)
    ensures categories == CategoryTotals(txs)
    ensures totalSpent == TotalSpent(txs)
    ensures totalReceived == TotalReceived(txs)
  {
    categories := [];
    totalSpent := 0.0;
    totalReceived := 0.0;
    for i := 0 to |txs|
      invariant categories == CategoryTotals(txs[..i])
      invariant totalSpent == TotalSpent(txs[..i])
      invariant totalReceived == TotalReceived(txs[..i])
    {
      var tx := txs[i];
      SpentStep(txs, i);
      assert txs[..i + 1][..i] == txs[..i];
      var category := CategoryName(tx.category);
      if tx.amount < 0.0 {
        totalSpent := totalSpent + -tx.amount;
        categories := AddTo(categories, category, -tx.amount);
      } else {
        totalReceived := totalReceived + tx.amount;
      }
    }
    WholePrefix(txs);
  }

  /** Summarises a transaction list in one pass; a missing or empty list has
      nothing to summarise. */
  method AnalyzeTransactionPattern(transactions: Option<seq<SpendingTx>>, fmt: real -> string)
    returns (r: Pattern)
    ensures r.NoData? <==> transactions.None? || transactions.value == []
    ensures r.NoData? ==> r.message == NoDataMessage
    ensures r.Summary? ==>
              var txs := transactions.value;
              && r.totalSpent == TotalSpent(txs)
              && r.totalReceived == TotalReceived(txs)
              && r.topCategories == TopCategories(CategoryTotals(txs))
              && r.averageMonthlySpend == TotalSpent(txs) / 3.0
              && r.insights == Join(InsightSentences(r.topCategories, r.totalSpent, fmt), " ")
  {
    if transactions.None? || transactions.value == [] {
      return NoData(NoDataMessage);
    }
    var txs := transactions.value;
    var categories, totalSpent, totalReceived := Accumulate(txs);
    var top := TopCategories(categories);
    var insights := GenerateSpendingInsights(top, totalSpent, fmt);
    r := Summary(totalSpent, totalReceived, top, totalSpent / 3.0, insights);
  }

  /** Every booked category total is positive, so a list with any category
      has spent something: the share in the insights is well defined. */
  lemma {:induction false} CategoryTotalsPositive(txs: seq<SpendingTx>)
    ensures forall i :: 0 <= i < |CategoryTotals(txs)| ==> CategoryTotals(txs)[i].1 > 0.0
    decreases |txs|
  {
    if txs != [] {
      var n := |txs| - 1;
      CategoryTotalsPositive(txs[..n]);
      if txs[n].amount < 0.0 {
        AddToPositive(CategoryTotals(txs[..n]), CategoryName(txs[n].category), -txs[n].amount);
      }
    }
  }

  lemma {:induction false} AddToPositive(cats: Categories, name: string, amount: real)
    requires amount > 0.0 && forall i :: 0 <= i < |cats| ==> cats[i].1 > 0.0
    ensures forall i :: 0 <= i < |AddTo(cats, name, amount)| ==> AddTo(cats, name, amount)[i].1 > 0.0
    decreases |cats|
  {
    if cats != [] && cats[0].0 != name {
      AddToPositive(cats[1..], name, amount);
    }
  }

  /** The top categories hold a positive share of a positive total. */
  lemma TopWithinSpent(txs: seq<SpendingTx>)
    ensures TopCategories(CategoryTotals(txs)) != [] ==> TotalSpent(txs) > 0.0
  {
    var cats := CategoryTotals(txs);
    if TopCategories(cats) != [] {
      CategoryTotalsPositive(txs);
      assert cats != [];
      SumByPositive(cats);
    }
  }

  lemma {:induction false} SumByPositive(cats: Categories)
    requires cats != [] && forall i :: 0 <= i < |cats| ==> cats[i].1 > 0.0
    ensures SumBy(cats, Amount) > 0.0
    decreases |cats|
  {
    var n := |cats| - 1;
    if n > 0 {
      SumByPositive(cats[..n]);
    } else {
      assert cats[..n] == [];
    }
  }

  // ---------------------------------------------------------------------------
  // Quick replies

  const DefaultQuickResponse: string := "How can I assist you with your banking needs today?"

  predicate KnownKind(kind: string) {
    kind == "balance" || kind == "transfer" || kind == "advice" || kind == "fraud" || kind == "help"
  }

  const BalanceReply: string := "I can check your account balance. Which account would you like to check?"
  const TransferReply: string := "To make a transfer, please go to the Transfer section or tell me the details."
  const AdviceReply: string := "I can provide personalized investment advice based on your profile."
  const FraudReply: string := "I'll analyze your recent transactions for any suspicious activity."
  const HelpReply: string :=
    "I can help you with: account balance, transfers, investment advice, fraud detection, and general banking questions."

  /** The canned reply for one of the five known request kinds, and the
      general prompt for anything else. */
  function GenerateQuickResponse(kind: string): (r: string)
    ensures kind == "balance" ==> r == BalanceReply
    ensures kind == "transfer" ==> r == TransferReply
    ensures kind == "advice" ==> r == AdviceReply
    ensures kind == "fraud" ==> r == FraudReply
    ensures kind == "help" ==> r == HelpReply
    ensures !KnownKind(kind) ==> r == DefaultQuickResponse
  {
    if kind == "balance" then BalanceReply
    else if kind == "transfer" then TransferReply
    else if kind == "advice" then AdviceReply
    else if kind == "fraud" then FraudReply
    else if kind == "help" then HelpReply
    else DefaultQuickResponse
  }

  /** Every known kind gets a reply of its own: no two kinds share a reply
      and none falls back to the general prompt (the six texts differ even
      in length). */
  lemma QuickResponsesDistinct(a: string, b: string)
    requires KnownKind(a)
    ensures GenerateQuickResponse(a) != DefaultQuickResponse
    ensures GenerateQuickResponse(a) == GenerateQuickResponse(b) ==> a == b
  {
    assert |BalanceReply| == 72 && |TransferReply| == 77 && |AdviceReply| == 67;
    assert |FraudReply| == 66 && |HelpReply| == 115 && |DefaultQuickResponse| == 51;
  }
}
