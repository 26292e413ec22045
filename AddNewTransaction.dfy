/** The add-transaction form: field edits, validation, the signed amount and
    the sender/recipient chosen by the transaction type, the simulated save
    call and the prepend to the stored list.  Number parsing (`parseFloat`,
    with `None` for NaN), the clock (today's date, the current time, the
    millisecond id) are parameters. */
module AddNewTransaction {
  import opened Text
  import opened Seqs
  import opened Ledger

  datatype FormData = FormData(description: string, amount: string, kind: string, date: string, category: string)

  datatype FormField = Description | Amount | Kind | Date | Category

  const DescriptionRequired: string := "Description is required"
  const AmountRequired: string := "Amount is required"
  const AmountPositive: string := "Amount must be a positive number"
  const CategoryRequired: string := "Category is required"
  const SavedMessage: string := "Transaction added successfully"

  /** The form as first shown (and as reset after a save): an expense dated today. */
  function EmptyForm(today: string): FormData {
    FormData("", "", "expense", today, "")
  }

  /** The key a field's error is stored under (the input's `name`). */
  function Key(f: FormField): string {
    match f
    case Description => "description"
    case Amount => "amount"
    case Kind => "type"
    case Date => "date"
    case Category => "category"
  }

  function WithField(form: FormData, f: FormField, value: string): (r: FormData)
    ensures f == Description ==> r == form.(description := value)
    ensures f == Amount ==> r == form.(amount := value)
    ensures f == Kind ==> r == form.(kind := value)
    ensures f == Date ==> r == form.(date := value)
    ensures f == Category ==> r == form.(category := value)
  {
    match f
    case Description => form.(description := value)
    case Amount => form.(amount := value)
    case Kind => form.(kind := value)
    case Date => form.(date := value)
    case Category => form.(category := value)
  }

  // ---------------------------------------------------------------------------
  // Validation

  /** The amount text is present and parses to a positive number. */
  predicate AmountValid(amount: string, parse: string -> Option<real>) {
    amount != "" && parse(amount).Some? && parse(amount).value > 0.0
  }

  /** The form can be saved: a description and a category that are not blank
      after trimming, and a positive amount. */
  predicate FormValid(form: FormData, parse: string -> Option<real>) {
    JsTrim(form.description) != [] && AmountValid(form.amount, parse) && JsTrim(form.category) != []
  }

  /** `errors` is the error map of `form`: an entry for exactly the fields
      that fail, each with its field's message. */
  predicate ReportsErrors(form: FormData, parse: string -> Option<real>, errors: map<string, string>) {
    && errors.Keys <= {"description", "amount", "category"}
    && ("description" in errors <==> JsTrim(form.description) == [])
    && ("description" in errors ==> errors["description"] == DescriptionRequired)
    && ("amount" in errors <==> !AmountValid(form.amount, parse))
    && ("amount" in errors ==>
          errors["amount"] == if form.amount == "" then AmountRequired else AmountPositive)
    && ("category" in errors <==> JsTrim(form.category) == [])
    && ("category" in errors ==> errors["category"] == CategoryRequired)
  }

  /** The error map of a form, filled in field by field. */
  method CollectErrors(form: FormData, parse: string -> Option<real>) returns (errors: map<string, string>)
    ensures ReportsErrors(form, parse, errors)
    ensures errors == map[] <==> FormValid(form, parse)
  {
    errors := map[];
    if JsTrim(form.description) == [] {
      errors := errors["description" := DescriptionRequired];
    }
    if form.amount == "" {
      errors := errors["amount" := AmountRequired];
    } else if parse(form.amount).None? || parse(form.amount).value <= 0.0 {
      errors := errors["amount" := AmountPositive];
    }
    if JsTrim(form.category) == [] {
      errors := errors["category" := CategoryRequired];
    }
  }

  // ---------------------------------------------------------------------------
  // The record that is saved

  /** The stored amount: the magnitude, negated for an expense. */
  function SignedAmount(kind: string, parsed: real): (r: real)
    ensures Abs(r) == Abs(parsed)
    ensures kind == "expense" ==> r <= 0.0
    ensures kind != "expense" ==> r >= 0.0
  {
    if kind == "expense" then -Abs(parsed) else Abs(parsed)
  }

  /** Sender and recipient: income comes from outside into the personal
      account; every other type goes from the personal account outwards. */
  function Endpoints(kind: string): (r: (string, string))
    ensures kind == "income" <==> r == ("External Source", "Personal Account")
    ensures kind != "income" <==> r == ("Personal Account", "External Payee")
  {
    if kind == "income" then ("External Source", "Personal Account")
    else ("Personal Account", "External Payee")
  }

  /** The transaction data sent to the save call: the form fields with the
      signed amount, the endpoints and the time of day. */
  function TransactionData(form: FormData, parsed: real, time: string): Transaction {
    var (from, to) := Endpoints(form.kind);
    Transaction("", Some(form.description), Some(SignedAmount(form.kind, parsed)), Some(form.kind),
                Some(form.date), Some(form.category), Some(from), Some(to), Some(time), None)
  }

  datatype ApiResponse = ApiResponse(success: bool, data: Transaction, message: string)

  /** The simulated save call: it always succeeds, gives the record the
      millisecond id, keeps a non-empty date (otherwise today) and marks it
      "Success". */
  function AddTransactionApi(data: Transaction, nowId: string, today: string): (r: ApiResponse)
    ensures r.success && r.message == SavedMessage
    ensures r.data.id == nowId && r.data.status == Some("Success")
    ensures data.date.Some? && data.date.value != "" ==> r.data.date == data.date
    ensures data.date.None? || data.date.value == "" ==> r.data.date == Some(today)
    ensures r.data.(id := data.id, date := data.date, status := data.status) == data
  {
    var date := if data.date.Some? && data.date.value != "" then data.date else Some(today);
    ApiResponse(true, data.(id := nowId, date := date, status := Some("Success")), SavedMessage)
  }

  /** The record a valid form is saved as. */
  function NewRecord(form: FormData, parsed: real, time: string, nowId: string, today: string): Transaction {
    AddTransactionApi(TransactionData(form, parsed, time), nowId, today).data
  }

  /** A saved record's amount always has the sign its type calls for, and it
      runs between the endpoints of that type. */
  lemma NewRecordShape(form: FormData, parsed: real, time: string, nowId: string, today: string)
    ensures var r := NewRecord(form, parsed, time, nowId, today);
            && r.amount.Some?
            && (form.kind == "expense" ==> r.amount.value <= 0.0)
            && (form.kind != "expense" ==> r.amount.value >= 0.0)
            && Abs(r.amount.value) == Abs(parsed)
            && (form.kind == "income" ==> r.from == Some("External Source") && r.to == Some("Personal Account"))
            && (form.kind != "income" ==> r.from == Some("Personal Account") && r.to == Some("External Payee"))
            && r.description == Some(form.description) && r.category == Some(form.category)
            && r.id == nowId && r.status == Some("Success")
  {
  }

  // ---------------------------------------------------------------------------
  // The form state

  datatype SubmitOutcome = Invalid | Saved(record: Transaction)

  class TransactionForm {
    var form: FormData
    var errors: map<string, string>
    const storage: BrowserStorage

    constructor (storage: BrowserStorage, today: string)
      ensures this.storage == storage && form == EmptyForm(today) && errors == map[]
    {
      this.storage := storage;
      form := EmptyForm(today);
      errors := map[];
    }

    /** Sets one field; an error standing against that field is cleared and
        every other error entry is kept. */
    method HandleChange(f: FormField, value: string)
      modifies this
      ensures form == WithField(old(form), f, value)
      ensures Key(f) in old(errors) && old(errors)[Key(f)] != "" ==> errors == old(errors)[Key(f) := ""]
      ensures !(Key(f) in old(errors) && old(errors)[Key(f)] != "") ==> errors == old(errors)
    {
      form := WithField(form, f, value);
      var key := Key(f);
      if key in errors && errors[key] != "" {
        errors := errors[key := ""];
      }
    }

    method ValidateForm(parse: string -> Option<real>) returns (valid: bool)
      modifies this
      ensures form == old(form)
      ensures valid <==> FormValid(form, parse)
      ensures valid <==> errors == map[]
      ensures ReportsErrors(form, parse, errors)
    {
      errors := CollectErrors(form, parse);
      valid := errors == map[];
    }

    /** Validates, then saves: the new record goes to the front of the stored
        list and the form is reset.  An invalid form saves nothing. */
    method HandleSubmit(parse: string -> Option<real>, time: string, nowId: string, today: string)
      returns (outcome: SubmitOutcome)
      modifies this, storage
      ensures outcome.Invalid? <==> !FormValid(old(form), parse)
      ensures ReportsErrors(old(form), parse, errors)
      ensures outcome.Invalid? ==> form == old(form) && storage.transactions == old(storage.transactions)
      ensures outcome.Saved? ==>
                && outcome.record == NewRecord(old(form), parse(old(form).amount).value, time, nowId, today)
                && storage.transactions == Some([outcome.record] + old(storage.StoredTransactions()))
                && form == EmptyForm(today)
      ensures storage.accessToken == old(storage.accessToken) && storage.user == old(storage.user)
    {
      var valid := ValidateForm(parse);
      if !valid {
        return Invalid;
      }
      var parsed := parse(form.amount).value;
      var response := AddTransactionApi(TransactionData(form, parsed, time), nowId, today);
      if response.success {
        storage.SetTransactions([response.data] + storage.StoredTransactions());
        form := EmptyForm(today);
      }
      outcome := Saved(response.data);
    }
  }
}
