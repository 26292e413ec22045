/** The transaction-history page: the search filter over the stored list,
    deleting one record or all of them, the amount and status display rules
    and the income and expense totals shown under the list. */
module TransactionHistory {
  import opened Text
  import opened Seqs
  import opened Ledger

  // ---------------------------------------------------------------------------
  // Search

  /** A text field that is present and, lower-cased, contains `term`. */
  predicate FieldHas(field: Option<string>, term: string) {
    field.Some? && Contains(ToLower(field.value), term)
  }

  /** The search test for one record: the lower-cased term occurs in the
      lower-cased sender, recipient, description or status, in the amount as
      `show` prints it, or in the date (the last two are not lower-cased). */
  predicate Matches(tx: Transaction, term: string, show: real -> string) {
    || FieldHas(tx.from, term)
    || FieldHas(tx.to, term)
    || FieldHas(tx.description, term)
    || (tx.amount.Some? && Contains(show(tx.amount.value), term))
    || (tx.date.Some? && Contains(tx.date.value, term))
    || FieldHas(tx.status, term)
  }

  /** The list shown for a search term: everything when the term is blank
      after trimming, otherwise the records matching the lower-cased term, in
      their stored order. */
  function SearchResults(txs: seq<Transaction>, searchTerm: string, show: real -> string): (r: seq<Transaction>)
    ensures JsTrim(searchTerm) == [] ==> r == txs
    ensures IsSubsequence(r, txs)
    ensures JsTrim(searchTerm) != [] ==>
              && (forall i :: 0 <= i < |r| ==> Matches(r[i], ToLower(searchTerm), show))
              && (forall i :: 0 <= i < |txs| && Matches(txs[i], ToLower(searchTerm), show) ==> txs[i] in r)
  {
    if JsTrim(searchTerm) == [] then
      SubsequenceRefl(txs);
      txs
    else
      var term := ToLower(searchTerm);
      Filter(txs, tx => Matches(tx, term, show))
  }

  // ---------------------------------------------------------------------------
  // Deleting

  /** The record test of a delete: keep what carries another id. */
  function OtherId(id: string): Transaction -> bool {
    (tx: Transaction) => tx.id != id
  }

  function SameId(id: string): Transaction -> bool {
    (tx: Transaction) => tx.id == id
  }

  function WithoutId(txs: seq<Transaction>, id: string): (r: seq<Transaction>)
    ensures IsSubsequence(r, txs)
    ensures forall i :: 0 <= i < |r| ==> r[i].id != id
    ensures forall i :: 0 <= i < |txs| && txs[i].id != id ==> txs[i] in r
  {
    Filter(txs, OtherId(id))
  }

  /** Deleting by id drops exactly the records carrying that id. */
  lemma DeleteCount(txs: seq<Transaction>, id: string)
    ensures |WithoutId(txs, id)| + |Filter(txs, SameId(id))| == |txs|
  {
    FilterComplement(txs, OtherId(id), SameId(id));
  }

  /** Deleting the same id twice is the same as deleting it once. */
  lemma {:induction false} DeleteIdempotent(txs: seq<Transaction>, id: string)
    ensures WithoutId(WithoutId(txs, id), id) == WithoutId(txs, id)
    decreases |txs|
  {
    if txs != [] {
      DeleteIdempotent(txs[1..], id);
    }
  }

  // ---------------------------------------------------------------------------
  // Display rules

  /** The signed display of an amount: "+$" for a non-negative amount and
      "-$" for a negative one, followed by the magnitude as `fixed2` prints it
      with two decimals. */
  function FormatAmount(amount: real, fixed2: real -> string): (r: string)
    ensures |r| >= 2
    ensures r[..2] == "+$" <==> amount >= 0.0
    ensures r[2..] == fixed2(Abs(amount))
  {
    (if amount >= 0.0 then "+$" else "-$") + fixed2(Abs(amount))
  }

  function AmountClass(amount: real): (r: string)
    ensures r == "amount-income" <==> amount >= 0.0
    ensures r == "amount-expense" <==> amount < 0.0
  {
    if amount >= 0.0 then "amount-income" else "amount-expense"
  }

  /** The sign shown and the colour class always agree. */
  lemma FormatMatchesClass(amount: real, fixed2: real -> string)
    ensures FormatAmount(amount, fixed2)[0] == '+' <==> AmountClass(amount) == "amount-income"
  {
  }

  /** The badge class of a status, compared case-insensitively; a missing or
      unknown status gets the default class. */
  function StatusClass(status: Option<string>): (r: string)
    ensures r == "status-success" <==> status.Some? && ToLower(status.value) == "success"
    ensures r == "status-pending" <==> status.Some? && ToLower(status.value) == "pending"
    ensures r == "status-failed" <==> status.Some? && ToLower(status.value) == "failed"
    ensures r == "status-default" <==>
              status.None? || ToLower(status.value) !in {"success", "pending", "failed"}
  {
    if status.None? then "status-default"
    else
      var s := ToLower(status.value);
      if s == "success" then "status-success"
      else if s == "pending" then "status-pending"
      else if s == "failed" then "status-failed"
      else "status-default"
  }

  // ---------------------------------------------------------------------------
  // Totals

  predicate IsIncome(tx: Transaction) {
    tx.amount.Some? && tx.amount.value > 0.0
  }

  predicate IsExpense(tx: Transaction) {
    tx.amount.Some? && tx.amount.value < 0.0
  }

  /** The amount a record contributes to a sum (a missing amount counts 0). */
  function AmountOf(tx: Transaction): real {
    tx.amount.GetOr(0.0)
  }

  /** The sum of the strictly positive amounts. */
  function TotalIncome(txs: seq<Transaction>): real {
    SumBy(Filter(txs, IsIncome), AmountOf)
  }

  /** The magnitude of the sum of the strictly negative amounts. */
  function TotalExpenses(txs: seq<Transaction>): real {
    Abs(SumBy(Filter(txs, IsExpense), AmountOf))
  }

  lemma {:induction false} IncomeSumNonNegative(txs: seq<Transaction>)
    ensures SumBy(Filter(txs, IsIncome), AmountOf) >= 0.0
  {
    var f := Filter(txs, IsIncome);
    SumByNonNegative(f, AmountOf);
  }

  lemma {:induction false} ExpenseSumNonPositive(txs: seq<Transaction>)
    ensures SumBy(Filter(txs, IsExpense), AmountOf) <= 0.0
    decreases |txs|
  {
    if txs != [] {
      ExpenseSumNonPositive(txs[1..]);
      var rest := Filter(txs[1..], IsExpense);
      if IsExpense(txs[0]) {
        SumByCons(txs[0], rest, AmountOf);
      }
    }
  }

  /** The positive and the negative amounts together sum to all amounts. */
  lemma {:induction false} SignedSplit(txs: seq<Transaction>)
    ensures SumBy(Filter(txs, IsIncome), AmountOf) + SumBy(Filter(txs, IsExpense), AmountOf)
            == SumBy(txs, AmountOf)
    decreases |txs|
  {
    if txs != [] {
      var tx, rest := txs[0], txs[1..];
      SignedSplit(rest);
      assert txs == [tx] + rest;
      SumByCons(tx, rest, AmountOf);
      if IsIncome(tx) {
        SumByCons(tx, Filter(rest, IsIncome), AmountOf);
      } else if IsExpense(tx) {
        SumByCons(tx, Filter(rest, IsExpense), AmountOf);
      } else {
        assert AmountOf(tx) == 0.0;
      }
    }
  }

  /** Both totals are non-negative, and income minus expenses is the net sum
      of all amounts: every non-zero amount is counted exactly once, on its
      own side. */
  lemma TotalsBalance(txs: seq<Transaction>)
    ensures TotalIncome(txs) >= 0.0 && TotalExpenses(txs) >= 0.0
    ensures TotalIncome(txs) - TotalExpenses(txs) == SumBy(txs, AmountOf)
  {
    IncomeSumNonNegative(txs);
    ExpenseSumNonPositive(txs);
    SignedSplit(txs);
  }

  /** A record with amount zero changes neither total. */
  lemma ZeroAmountIgnored(txs: seq<Transaction>, tx: Transaction)
    requires tx.amount == Some(0.0)
    ensures TotalIncome(txs + [tx]) == TotalIncome(txs)
    ensures TotalExpenses(txs + [tx]) == TotalExpenses(txs)
  {
    FilterAppend(txs, [tx], IsIncome);
    FilterAppend(txs, [tx], IsExpense);
    assert [tx][1..] == [];
    assert Filter(txs, IsIncome) + [] == Filter(txs, IsIncome);
    assert Filter(txs, IsExpense) + [] == Filter(txs, IsExpense);
  }

  // ---------------------------------------------------------------------------
  // The page state

  /** The page: the full list, the list on display, the search term, and the
      storage both lists are loaded from. */
  class HistoryView {
    var transactions: seq<Transaction>
    var filtered: seq<Transaction>
    var searchTerm: string
    const storage: BrowserStorage
    const show: real -> string

    constructor (storage: BrowserStorage, show: real -> string)
      ensures this.storage == storage && this.show == show
      ensures transactions == [] && filtered == [] && searchTerm == ""
    {
      this.storage := storage;
      this.show := show;
      transactions := [];
      filtered := [];
      searchTerm := "";
    }

    /** Loads the stored list into both lists.  The search effect depends
        on the list, so it runs again afterwards: what is shown is the
        loaded list filtered by the term typed so far. */
    method Load()
      modifies this
      ensures transactions == storage.StoredTransactions()
      ensures filtered == SearchResults(transactions, searchTerm, show)
      ensures JsTrim(searchTerm) == [] ==> filtered == transactions
      ensures searchTerm == old(searchTerm)
    {
      transactions := storage.StoredTransactions();
      filtered := transactions;
      // the search effect, re-run because the list changed
      filtered := SearchResults(transactions, searchTerm, show);
    }

    /** Re-runs the filter for a new search term. */
    method Search(term: string)
      modifies this
      ensures searchTerm == term
      ensures transactions == old(transactions)
      ensures filtered == SearchResults(transactions, term, show)
    {
      searchTerm := term;
      filtered := SearchResults(transactions, term, show);
    }

    /** Deletes every record with `id` once the user confirms: storage and
        both lists receive the same remaining list, and the search effect,
        which depends on the list, then filters it again by the current
        term. */
    method HandleDelete(id: string, confirmed: bool)
      modifies this, storage
      ensures !confirmed ==> transactions == old(transactions) && filtered == old(filtered)
                             && storage.transactions == old(storage.transactions)
      ensures confirmed ==> && transactions == WithoutId(old(transactions), id)
                            && filtered == SearchResults(transactions, searchTerm, show)
                            && storage.transactions == Some(transactions)
      ensures storage.accessToken == old(storage.accessToken) && storage.user == old(storage.user)
      ensures searchTerm == old(searchTerm)
    {
      if confirmed {
        var updated := WithoutId(transactions, id);
        storage.SetTransactions(updated);
        transactions := updated;
        filtered := updated;
        // the search effect, re-run because the list changed
        filtered := SearchResults(transactions, searchTerm, show);
      }
    }

    /** Removes the stored list and empties both lists once confirmed. */
    method HandleClearAll(confirmed: bool)
      modifies this, storage
      ensures !confirmed ==> transactions == old(transactions) && filtered == old(filtered)
                             && storage.transactions == old(storage.transactions)
      ensures confirmed ==> transactions == [] && filtered == [] && storage.transactions == None
      ensures storage.accessToken == old(storage.accessToken) && storage.user == old(storage.user)
      ensures searchTerm == old(searchTerm)
    {
      if confirmed {
        storage.RemoveTransactions();
        transactions := [];
        filtered := [];
      }
    }
  }
}
