/** The transfer form: the recipient-number pattern, the amount limits, the
    balance lookup, the fraud check that runs on large amounts, the alert and
    colour rules for its score, and the submit path that a fraudulent check
    blocks.  The form library's `required`/`pattern`/`min`/`max` rules are
    stated as the error map they produce; number parsing, the fraud service
    and the transfer service are parameters. */
module Transfer {
  import opened Text
  import Constants

  datatype BankAccount = BankAccount(id: string, accountName: string, accountNumber: string, balance: real)

  datatype TransferForm = TransferForm(fromAccountId: string, toAccountNumber: string, amount: string, description: string)

  const EmptyTransferForm: TransferForm := TransferForm("", "", "", "")

  // ---------------------------------------------------------------------------
  // Accounts

  /** The first account with the given id, as `accounts.find` returns it. */
  function FindAccount(accounts: seq<BankAccount>, id: string): (r: Option<BankAccount>)
    ensures r.None? <==> forall i :: 0 <= i < |accounts| ==> accounts[i].id != id
    ensures r.Some? ==> exists i :: 0 <= i < |accounts| && accounts[i] == r.value
                                    && r.value.id == id
                                    && forall j :: 0 <= j < i ==> accounts[j].id != id
  {
    if accounts == [] then None
    else if accounts[0].id == id then Some(accounts[0])
    else
      var r := FindAccount(accounts[1..], id);
      assert forall i :: 1 <= i < |accounts| ==> accounts[i] == accounts[1..][i - 1];
      if r.Some? then
        var k :| 0 <= k < |accounts[1..]| && accounts[1..][k] == r.value && r.value.id == id
                 && forall j :: 0 <= j < k ==> accounts[1..][j].id != id;
        assert accounts[k + 1] == r.value;
        assert forall j :: 0 <= j < k + 1 ==> accounts[j].id != id by {
          forall j | 0 <= j < k + 1 ensures accounts[j].id != id {
            if j > 0 { assert accounts[j] == accounts[1..][j - 1]; }
          }
        }
        r
      else r
  }

  /** `getAccountBalance`: the balance of the first account with that id, or
      0 when there is none. */
  function GetAccountBalance(accounts: seq<BankAccount>, id: string): (r: real)
    ensures (forall i :: 0 <= i < |accounts| ==> accounts[i].id != id) ==> r == 0.0
    ensures forall i :: (0 <= i < |accounts| && accounts[i].id == id
                         && forall j :: 0 <= j < i ==> accounts[j].id != id) ==> r == accounts[i].balance
  {
    var found := FindAccount(accounts, id);
    if found.Some? then found.value.balance else 0.0
  }

  /** The balance update after a completed transfer: every account with the
      id takes the new balance, every other account is unchanged. */
  function SetBalance(accounts: seq<BankAccount>, id: string, balance: real): (r: seq<BankAccount>)
    ensures |r| == |accounts|
    ensures forall i :: 0 <= i < |r| ==>
              r[i] == if accounts[i].id == id then accounts[i].(balance := balance) else accounts[i]
  {
    seq(|accounts|, i requires 0 <= i < |accounts| =>
      if accounts[i].id == id then accounts[i].(balance := balance) else accounts[i])
  }

  // ---------------------------------------------------------------------------
  // Validation

  predicate AccountNumberChar(c: char) {
    'A' <= c <= 'Z' || '0' <= c <= '9'
  }

  /** The recipient pattern `^[A-Z0-9]{8,20}$`: 8 to 20 upper-case letters
      and digits. */
  predicate RecipientValid(s: string) {
    8 <= |s| <= 20 && AllSatisfy(s, AccountNumberChar)
  }

  /** Every account number the application generates ("DTB" and nine digits)
      is a valid recipient. */
  lemma GeneratedNumberIsValidRecipient(random: real)
    requires 0.0 <= random < 1.0
    ensures RecipientValid(Constants.GenerateAccountNumber(random))
  {
    var r := Constants.GenerateAccountNumber(random);
    forall k | 0 <= k < |r| ensures AccountNumberChar(r[k]) {
      if k < 3 {
        assert r[k] == r[..3][k];
      } else {
        assert r[k] == r[3..][k - 3];
      }
    }
  }

  const FromRequired: string := "Please select an account"
  const RecipientRequired: string := "Account number is required"
  const RecipientFormat: string := "Invalid account number format"
  const AmountRequired: string := "Amount is required"
  const AmountTooSmall: string := "Amount must be greater than 0"
  const AmountTooLarge: string := "Amount exceeds available balance"

  /** The ceiling on the amount: the selected account's balance, or one
      million while no account is selected. */
  function AmountLimit(form: TransferForm, accounts: seq<BankAccount>): real {
    if form.fromAccountId != "" then GetAccountBalance(accounts, form.fromAccountId) else 1000000.0
  }

  datatype TransferField = FromAccount | Recipient | Amount

  function RecipientError(to: string): (r: Option<string>)
    ensures r.None? <==> RecipientValid(to)
    ensures r.Some? ==> r.value == if to == "" then RecipientRequired else RecipientFormat
  {
    if to == "" then Some(RecipientRequired)
    else if !RecipientValid(to) then Some(RecipientFormat)
    else None
  }

  /** The amount is required; a parsed amount above the limit, or else below
      0.01, is refused (the limit's message wins when both apply). */
  function AmountError(amount: string, parse: string -> Option<real>, limit: real): (r: Option<string>)
    ensures r.None? <==> amount != "" && (parse(amount).Some? ==> 0.01 <= parse(amount).value <= limit)
    ensures r == Some(AmountTooLarge) <==> amount != "" && parse(amount).Some? && parse(amount).value > limit
  {
    if amount == "" then Some(AmountRequired)
    else if parse(amount).None? then None
    else if parse(amount).value > limit then Some(AmountTooLarge)
    else if parse(amount).value < 0.01 then Some(AmountTooSmall)
    else None
  }

  function FieldError(form: TransferForm, accounts: seq<BankAccount>, parse: string -> Option<real>, f: TransferField): Option<string> {
    match f
    case FromAccount => if form.fromAccountId == "" then Some(FromRequired) else None
    case Recipient => RecipientError(form.toAccountNumber)
    case Amount => AmountError(form.amount, parse, AmountLimit(form, accounts))
  }

  /** The form that reaches the submit handler: an account is chosen, the
      recipient matches the pattern, and the amount is present and, when it
      parses, between 0.01 and the limit. */
  predicate TransferFormValid(form: TransferForm, accounts: seq<BankAccount>, parse: string -> Option<real>) {
    && form.fromAccountId != ""
    && RecipientValid(form.toAccountNumber)
    && form.amount != ""
    && (parse(form.amount).Some? ==> 0.01 <= parse(form.amount).value <= AmountLimit(form, accounts))
  }

  /** The form library's error map: the message of exactly the fields whose
      rule fails; it is empty exactly for a valid form. */
  function FormErrors(form: TransferForm, accounts: seq<BankAccount>, parse: string -> Option<real>): (errors: map<TransferField, string>)
    ensures forall f :: f in errors <==> FieldError(form, accounts, parse, f).Some?
    ensures forall f :: f in errors ==> errors[f] == FieldError(form, accounts, parse, f).value
    ensures errors == map[] <==> TransferFormValid(form, accounts, parse)
  {
    var errors := map f | f in {FromAccount, Recipient, Amount} && FieldError(form, accounts, parse, f).Some?
                          :: FieldError(form, accounts, parse, f).value;
    assert FromAccount !in errors && Recipient !in errors && Amount !in errors ==> errors == map[];
    errors
  }

  // ---------------------------------------------------------------------------
  // Fraud check

  datatype FraudResult = FraudResult(isFraudulent: bool, fraudScore: int, alerts: seq<string>)

  datatype FraudRequest = FraudRequest(fromAccountId: string, toAccountNumber: string, amount: real, description: string)

  /** The check runs when the amount exceeds 1000 and the account, the
      recipient and the amount are all filled in. */
  predicate FraudCheckRuns(form: TransferForm, parse: string -> Option<real>) {
    && parse(form.amount).Some? && parse(form.amount).value > 1000.0
    && form.fromAccountId != "" && form.toAccountNumber != "" && form.amount != ""
  }

  /** The alert is raised by a score above 50. */
  predicate RaisesAlert(result: FraudResult) {
    result.fraudScore > 50
  }

  /** The colour of the score line: danger above 70, warning above 50,
      success otherwise. */
  function ScoreColor(score: int): (r: string)
    ensures r == "text-danger" <==> score > 70
    ensures r == "text-warning" <==> 50 < score <= 70
    ensures r == "text-success" <==> score <= 50
  {
    if score > 70 then "text-danger" else if score > 50 then "text-warning" else "text-success"
  }

  // ---------------------------------------------------------------------------
  // The transfer request

  /** The request body.  `toAccountId` is the key the transfer service
      checks; the form sends the recipient as `toAccountNumber`. */
  datatype TransferRequest = TransferRequest(
    fromAccountId: string, toAccountId: Option<string>, toAccountNumber: string,
    amount: real, description: string)

  /** The service's own guard: source account, target account and a non-zero
      amount must all be present, or it throws before sending. */
  predicate ServiceAccepts(req: TransferRequest) {
    req.fromAccountId != "" && req.toAccountId.Some? && req.toAccountId.value != "" && req.amount != 0.0
  }

  function DescriptionOrDefault(description: string): string {
    if description != "" then description else "Transfer"
  }

  /** The message shown for a failed transfer: the service's error text when
      it is present and non-empty (JavaScript's `||` treats "" as missing),
      otherwise 'Transfer failed'. */
  function FailureMessage(error: Option<string>): (r: string)
    ensures r != ""
    ensures error.Some? && error.value != "" ==> r == error.value
    ensures error.None? || error.value == "" ==> r == "Transfer failed"
  {
    if error.Some? && error.value != "" then error.value else "Transfer failed"
  }

  /** The request exactly as the form builds it: no `toAccountId`. */
  function RequestAsWritten(form: TransferForm, amount: real): TransferRequest {
    TransferRequest(form.fromAccountId, None, form.toAccountNumber, amount, DescriptionOrDefault(form.description))
  }

  /** Whatever is filled in, the service's guard refuses the request as the
      form builds it, so no transfer is ever sent. */
  lemma AsWrittenTransferAlwaysRefused(form: TransferForm, amount: real)
    ensures !ServiceAccepts(RequestAsWritten(form, amount))
  {
  }

  /** The request with the recipient also sent under the key the service
      reads. */
  function Request(form: TransferForm, amount: real): (r: TransferRequest)
    ensures r.toAccountId == Some(form.toAccountNumber) && r.toAccountNumber == form.toAccountNumber
    ensures r.fromAccountId == form.fromAccountId && r.amount == amount
    ensures r.description == if form.description != "" then form.description else "Transfer"
  {
    TransferRequest(form.fromAccountId, Some(form.toAccountNumber), form.toAccountNumber, amount,
                    DescriptionOrDefault(form.description))
  }

  /** Every form that passes validation and whose amount parses yields a
      request the service's guard accepts. */
  lemma ValidFormPassesServiceGuard(form: TransferForm, accounts: seq<BankAccount>, parse: string -> Option<real>)
    requires TransferFormValid(form, accounts, parse) && parse(form.amount).Some?
    ensures ServiceAccepts(Request(form, parse(form.amount).value))
  {
    assert |form.toAccountNumber| >= 8;
  }

  datatype TransferReply = ReplyError(error: Option<string>) | Reply(message: string, newBalance: real)

  datatype SubmitOutcome =
    | FormInvalid(errors: map<TransferField, string>)
    | Blocked
    | Failed(message: string)
    | Completed
    | NotCompleted

  // ---------------------------------------------------------------------------
  // The page state

  class TransferPage {
    var accounts: seq<BankAccount>
    var form: TransferForm
    var fraudCheck: Option<FraudResult>
    var showFraudAlert: bool

    constructor (accounts: seq<BankAccount>)
      ensures this.accounts == accounts && form == EmptyTransferForm
      ensures fraudCheck == None && !showFraudAlert
    {
      this.accounts := accounts;
      form := EmptyTransferForm;
      fraudCheck := None;
      showFraudAlert := false;
    }

    /** A new amount is typed.  When the check runs, a result is stored and
        a score above 50 raises the alert (a lower score leaves the alert as
        it was); a failed check (`None`) changes nothing. */
    method AmountChanged(value: string, parse: string -> Option<real>, detect: FraudRequest -> Option<FraudResult>)
      modifies this
      ensures form == old(form).(amount := value) && accounts == old(accounts)
      ensures FraudCheckRuns(form, parse) ==>
                var result := detect(FraudRequest(form.fromAccountId, form.toAccountNumber, parse(value).value, "Transfer check"));
                if result.Some? then
                  fraudCheck == result && showFraudAlert == (old(showFraudAlert) || RaisesAlert(result.value))
                else fraudCheck == old(fraudCheck) && showFraudAlert == old(showFraudAlert)
      ensures !FraudCheckRuns(form, parse) ==> fraudCheck == old(fraudCheck) && showFraudAlert == old(showFraudAlert)
    {
      form := form.(amount := value);
      if parse(value).Some? && parse(value).value > 1000.0 {
        if form.fromAccountId == "" || form.toAccountNumber == "" || form.amount == "" {
          return;
        }
        var result := detect(FraudRequest(form.fromAccountId, form.toAccountNumber, parse(value).value, "Transfer check"));
        if result.Some? {
          fraudCheck := result;
          if result.value.fraudScore > 50 {
            showFraudAlert := true;
          }
        }
      }
    }

    /** Submitting, with the corrected request (`Request`, which carries
        `toAccountId`): an invalid form shows its errors; a stored check
        marked fraudulent blocks the transfer with no call; otherwise the
        transfer is sent, and on "Transfer successful" the source account
        takes the new balance and the form and the check are cleared.
        `HandleSubmitAsWritten` is the handler with the request the page
        actually builds. */
    method HandleSubmit(parse: string -> Option<real>, transfer: TransferRequest -> TransferReply)
      returns (outcome: SubmitOutcome)
      modifies this
      ensures outcome.FormInvalid? <==> !TransferFormValid(old(form), old(accounts), parse)
      ensures outcome.FormInvalid? ==> outcome.errors == FormErrors(old(form), old(accounts), parse) && outcome.errors != map[]
      ensures outcome == Blocked <==>
                TransferFormValid(old(form), old(accounts), parse) && old(fraudCheck).Some? && old(fraudCheck).value.isFraudulent
      ensures outcome == Completed ==>
                && parse(old(form).amount).Some?
                && var reply := transfer(Request(old(form), parse(old(form).amount).value));
                && reply.Reply? && reply.message == "Transfer successful"
                && accounts == (if FindAccount(old(accounts), old(form).fromAccountId).Some?
                                then SetBalance(old(accounts), old(form).fromAccountId, reply.newBalance)
                                else old(accounts))
                && form == EmptyTransferForm && fraudCheck == None && !showFraudAlert
      ensures outcome != Completed ==>
                accounts == old(accounts) && form == old(form) && fraudCheck == old(fraudCheck)
                && showFraudAlert == old(showFraudAlert)
      ensures TransferFormValid(old(form), old(accounts), parse) && !(old(fraudCheck).Some? && old(fraudCheck).value.isFraudulent) ==>
                if parse(old(form).amount).None? then outcome == Failed("Transfer failed")
                else
                  var reply := transfer(Request(old(form), parse(old(form).amount).value));
                  if reply.ReplyError? then outcome == Failed(FailureMessage(reply.error))
                  else if reply.message == "Transfer successful" then outcome == Completed
                  else outcome == NotCompleted
    {
      var errors := FormErrors(form, accounts, parse);
      if errors != map[] {
        return FormInvalid(errors);
      }
      if fraudCheck.Some? && fraudCheck.value.isFraudulent {
        return Blocked;
      }
      if parse(form.amount).None? {
        // The service refuses a NaN amount before any request is sent.
        return Failed("Transfer failed");
      }
      var amount := parse(form.amount).value;
      ValidFormPassesServiceGuard(form, accounts, parse);
      var reply := transfer(Request(form, amount));
      if reply.ReplyError? {
        return Failed(FailureMessage(reply.error));
      }
      if reply.message != "Transfer successful" {
        return NotCompleted;
      }
      if FindAccount(accounts, form.fromAccountId).Some? {
        accounts := SetBalance(accounts, form.fromAccountId, reply.newBalance);
      }
      form := EmptyTransferForm;
      fraudCheck := None;
      showFraudAlert := false;
      outcome := Completed;
    }

    /** Submitting with the request exactly as the page builds it: past
        validation and the fraud block, the transfer service's guard throws
        before anything is sent, the handler reports 'Transfer failed' and no
        state changes. */
    method HandleSubmitAsWritten(parse: string -> Option<real>) returns (outcome: SubmitOutcome)
      ensures outcome.FormInvalid? <==> !TransferFormValid(form, accounts, parse)
      ensures outcome.FormInvalid? ==> outcome.errors == FormErrors(form, accounts, parse)
      ensures outcome == Blocked <==>
                TransferFormValid(form, accounts, parse) && fraudCheck.Some? && fraudCheck.value.isFraudulent
      ensures TransferFormValid(form, accounts, parse) && !(fraudCheck.Some? && fraudCheck.value.isFraudulent) ==>
                outcome == Failed("Transfer failed")
    {
      var errors := FormErrors(form, accounts, parse);
      if errors != map[] {
        return FormInvalid(errors);
      }
      if fraudCheck.Some? && fraudCheck.value.isFraudulent {
        return Blocked;
      }
      // `parseFloat` may give NaN; the guard throws on the missing key either way.
      var amount := if parse(form.amount).Some? then parse(form.amount).value else 0.0;
      var request := RequestAsWritten(form, amount);
      AsWrittenTransferAlwaysRefused(form, amount);
      assert !ServiceAccepts(request);
      // the guard throws, and the handler's catch shows its default message
      outcome := Failed("Transfer failed");
    }
  }
}
