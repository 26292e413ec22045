/** The browser-side ledger: the transaction record kept in local storage and
    the storage itself, with one typed entry per key the application uses
    ("access_token", "user", "transactions").  Serialisation to JSON text is
    not modelled: each key holds the value the application writes to it. */
module Ledger {
  import opened Text

  /** A stored transaction.  Every field the application may leave out is an
      `Option`; `amount` is the signed number (negative for money going out). */
  datatype Transaction = Transaction(
    id: string,
    description: Option<string>,
    amount: Option<real>,
    kind: Option<string>,
    date: Option<string>,
    category: Option<string>,
    from: Option<string>,
    to: Option<string>,
    time: Option<string>,
    status: Option<string>)

  datatype Account = Account(kind: string, balance: real, currency: string)

  /** The signed-in user record kept under "user". */
  datatype User = User(username: string, email: string, phone: Option<string>, joinDate: string, accounts: Option<seq<Account>>)

  class BrowserStorage {
    var accessToken: Option<string>
    var user: Option<User>
    var transactions: Option<seq<Transaction>>

    constructor ()
      ensures accessToken == None && user == None && transactions == None
    {
      accessToken := None;
      user := None;
      transactions := None;
    }

    /** The stored transaction list, or the empty list when the key is
        missing (`JSON.parse(getItem('transactions') || '[]')`). */
    function StoredTransactions(): (r: seq<Transaction>)
      reads this
      ensures transactions.None? ==> r == []
      ensures transactions.Some? ==> r == transactions.value
    {
      transactions.GetOr([])
    }

    /** A present token that is not the empty string (the truthiness test on
        `getItem('access_token')`). */
    predicate HasToken()
      reads this
    {
      accessToken.Some? && accessToken.value != ""
    }

    method SetAccessToken(token: string)
      modifies this
      ensures accessToken == Some(token)
      ensures user == old(user) && transactions == old(transactions)
    {
      accessToken := Some(token);
    }

    method SetUser(u: User)
      modifies this
      ensures user == Some(u)
      ensures accessToken == old(accessToken) && transactions == old(transactions)
    {
      user := Some(u);
    }

    method SetTransactions(txs: seq<Transaction>)
      modifies this
      ensures transactions == Some(txs)
      ensures accessToken == old(accessToken) && user == old(user)
    {
      transactions := Some(txs);
    }

    method RemoveAccessToken()
      modifies this
      ensures accessToken == None
      ensures user == old(user) && transactions == old(transactions)
    {
      accessToken := None;
    }

    method RemoveUser()
      modifies this
      ensures user == None
      ensures accessToken == old(accessToken) && transactions == old(transactions)
    {
      user := None;
    }

    method RemoveTransactions()
      modifies this
      ensures transactions == None
      ensures accessToken == old(accessToken) && user == old(user)
    {
      transactions := None;
    }
  }
}
