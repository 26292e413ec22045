/** The back end's wallet routes: creating and reading the user's wallet,
    the ETH and token transfers with their order of checks and their balance
    bookkeeping, and the transfer-cost estimate.  The database is a class
    holding the wallet and transaction tables; the blockchain service's
    replies (key creation, balance query, signed transfer, gas price) are
    parameters. */
module Web3Routes {
  import opened Text

  datatype WalletRow = WalletRow(
    id: string, address: string, walletType: string, privateKey: string, publicKey: string,
    balanceEth: real, balanceUsdt: real, userId: string, isActive: bool)

  /** `to_dict` of a wallet: every column but the private key. */
  datatype WalletView = WalletView(
    id: string, address: string, walletType: string, balanceEth: real, balanceUsdt: real,
    userId: string, isActive: bool)

  function View(w: WalletRow): WalletView {
    WalletView(w.id, w.address, w.walletType, w.balanceEth, w.balanceUsdt, w.userId, w.isActive)
  }

  datatype CryptoTxRow = CryptoTxRow(
    txHash: string, fromAddress: string, toAddress: string, amount: real,
    currency: string, status: string, walletId: string)

  /** The key-creation reply: an error text, or the new key material. */
  datatype Creation = CreationFailed(error: string) | Generated(address: string, privateKey: string, publicKey: Option<string>)

  /** The balance reply; `error` is "" when the query succeeded. */
  datatype BalanceReply = BalanceReply(error: string, ethBalance: Option<real>, tokenBalance: Option<real>)

  /** The signed-transfer reply: an error text, or the hash and the receipt
      status.  The route tests the error for truthiness, so an empty error
      text goes on to read the missing hash and ends in its `except`. */
  datatype SendReply = SendFailed(error: string) | Sent(txHash: string, receiptStatus: int)

  datatype CreateResult = WalletExists(wallet: WalletView) | ServiceError(error: string) | WalletCreated(wallet: WalletView)

  datatype GetResult = NoWallet | WalletFound(wallet: WalletView, live: BalanceReply)

  datatype TransferResult =
    | BadRequest(error: string)
    | NotFound(error: string)
    | TransferError(error: string)
    | Initiated(message: string, tx: CryptoTxRow)
      /** An exception caught by the route's `except` (500); the text of the
          exception is not modelled. */
    | Crashed

  function CreateStatus(r: CreateResult): int {
    match r
    case WalletExists(_) => 200
    case ServiceError(_) => 500
    case WalletCreated(_) => 201
  }

  function TransferStatus(r: TransferResult): int {
    match r
    case BadRequest(_) => 400
    case NotFound(_) => 404
    case TransferError(_) => 500
    case Crashed => 500
    case Initiated(_, _) => 200
  }

  /** The JSON value of `amount`: absent (or null), a number, or a string. */
  datatype JsonAmount = NoAmount | AmountNumber(value: real) | AmountText(text: string)

  /** The JSON body of a transfer request; a missing text field is "". The
      request without a JSON body is `None` where the body is optional. */
  datatype TransferBody = TransferBody(toAddress: string, amount: JsonAmount, tokenSymbol: string)

  /** `data.get('amount')` is falsy for a missing amount, the number 0 and
      the empty string; the string "0" is truthy. */
  predicate AmountGiven(body: TransferBody) {
    match body.amount
    case NoAmount => false
    case AmountNumber(n) => n != 0.0
    case AmountText(t) => t != ""
  }

  /** `float(data['amount'])`: a number is kept, a string goes through
      Python's conversion `toFloat`, whose `None` is the ValueError. */
  function AmountValue(amount: JsonAmount, toFloat: string -> Option<real>): Option<real> {
    match amount
    case NoAmount => None
    case AmountNumber(n) => Some(n)
    case AmountText(t) => toFloat(t)
  }

  /** The index of the user's first active wallet, as `filter_by(...).first()`. */
  function FindActive(wallets: seq<WalletRow>, userId: string): (r: Option<nat>)
    ensures r.None? <==> forall i :: 0 <= i < |wallets| ==> !(wallets[i].userId == userId && wallets[i].isActive)
    ensures r.Some? ==> r.value < |wallets| && wallets[r.value].userId == userId && wallets[r.value].isActive
    ensures r.Some? ==> forall i :: 0 <= i < r.value ==> !(wallets[i].userId == userId && wallets[i].isActive)
  {
    if wallets == [] then None
    else if wallets[0].userId == userId && wallets[0].isActive then Some(0)
    else
      var r := FindActive(wallets[1..], userId);
      assert forall i :: 1 <= i < |wallets| ==> wallets[i] == wallets[1..][i - 1];
      if r.Some? then Some(r.value + 1) else None
  }

  function ReceiptStatusText(receiptStatus: int): (r: string)
    ensures r == "completed" <==> receiptStatus == 1
  {
    if receiptStatus == 1 then "completed" else "failed"
  }

  /** The success message of a token transfer names the symbol and, like the
      ETH one, contains "initiated", which is what the wallet page waits for. */
  function TokenMessage(symbol: string): (r: string)
    ensures Contains(r, "initiated")
  {
    var r := symbol + " transfer initiated";
    assert OccursAt(r, "initiated", |symbol| + 10);
    r
  }

  // ---------------------------------------------------------------------------
  // The estimate

  const EthTransferGas: real := 21000.0
  const TokenTransferGas: real := 65000.0
  const EthUsd: real := 1800.0

  datatype Estimate = Estimate(gasUnits: real, gasPriceEth: real, totalCostEth: real, totalCostUsd: real, totalAmount: real)

  /** `estimate_transfer` for a given amount and gas price (in ETH): the ETH
      transfer costs 21000 gas and adds its fee to the amount; the token
      transfer costs 65000 gas and its total is the amount alone. */
  function EstimateTransfer(amount: real, gasPriceEth: real): (r: (Estimate, Estimate))
    ensures r.0.totalCostEth == 21000.0 * gasPriceEth && r.1.totalCostEth == 65000.0 * gasPriceEth
    ensures r.0.totalCostUsd == r.0.totalCostEth * 1800.0 && r.1.totalCostUsd == r.1.totalCostEth * 1800.0
    ensures r.0.totalAmount == amount + r.0.totalCostEth && r.1.totalAmount == amount
    ensures r.0.gasPriceEth == gasPriceEth && r.1.gasPriceEth == gasPriceEth
  {
    var ethCost := EthTransferGas * gasPriceEth;
    var tokenCost := TokenTransferGas * gasPriceEth;
    (Estimate(EthTransferGas, gasPriceEth, ethCost, ethCost * EthUsd, amount + ethCost),
     Estimate(TokenTransferGas, gasPriceEth, tokenCost, tokenCost * EthUsd, amount))
  }

  datatype EstimateResult = EstimateRefused | EstimateFailed | Estimated(eth: Estimate, token: Estimate)

  /** A missing (or empty) body or a falsy amount is refused with 400; an
      amount `float` cannot convert raises, and the handler answers 500;
      otherwise the estimate for the converted amount. */
  function EstimateRoute(body: Option<TransferBody>, gasPriceEth: real, toFloat: string -> Option<real>): (r: EstimateResult)
    ensures r == EstimateRefused <==> body.None? || !AmountGiven(body.value)
    ensures r == EstimateFailed <==>
              body.Some? && AmountGiven(body.value) && AmountValue(body.value.amount, toFloat).None?
    ensures r.Estimated? ==>
              && AmountValue(body.value.amount, toFloat).Some?
              && (r.eth, r.token) == EstimateTransfer(AmountValue(body.value.amount, toFloat).value, gasPriceEth)
  {
    if body.None? || !AmountGiven(body.value) then EstimateRefused
    else if AmountValue(body.value.amount, toFloat).None? then EstimateFailed
    else
      var (eth, token) := EstimateTransfer(AmountValue(body.value.amount, toFloat).value, gasPriceEth);
      Estimated(eth, token)
  }

  // ---------------------------------------------------------------------------
  // The tables

  class WalletDatabase {
    var wallets: seq<WalletRow>
    var transactions: seq<CryptoTxRow>

    constructor (wallets: seq<WalletRow>, transactions: seq<CryptoTxRow>)
      ensures this.wallets == wallets && this.transactions == transactions
    {
      this.wallets := wallets;
      this.transactions := transactions;
    }

    /** `create_wallet`: an active wallet already held is returned (200) and
        nothing is added; a key-creation error gives 500; otherwise a new
        active Ethereum wallet with zero balances is stored (201). */
    method CreateWallet(userId: string, creation: Creation, newId: string) returns (r: CreateResult)
      modifies this
      ensures transactions == old(transactions)
      ensures FindActive(old(wallets), userId).Some? ==>
                r == WalletExists(View(old(wallets)[FindActive(old(wallets), userId).value])) && wallets == old(wallets)
      ensures FindActive(old(wallets), userId).None? && creation.CreationFailed? ==>
                r == ServiceError(creation.error) && wallets == old(wallets)
      ensures FindActive(old(wallets), userId).None? && creation.Generated? ==>
                var row := WalletRow(newId, creation.address, "ethereum", creation.privateKey,
                                     creation.publicKey.GetOr(""), 0.0, 0.0, userId, true);
                && wallets == old(wallets) + [row]
                && r == WalletCreated(View(row))
                && FindActive(wallets, userId) == Some(|old(wallets)|)
    {
      var existing := FindActive(wallets, userId);
      if existing.Some? {
        return WalletExists(View(wallets[existing.value]));
      }
      if creation.CreationFailed? {
        return ServiceError(creation.error);
      }
      var row := WalletRow(newId, creation.address, "ethereum", creation.privateKey,
                           creation.publicKey.GetOr(""), 0.0, 0.0, userId, true);
      wallets := wallets + [row];
      forall i | 0 <= i < |old(wallets)|
        ensures !(wallets[i].userId == userId && wallets[i].isActive)
      {
        assert wallets[i] == old(wallets)[i];
      }
      assert wallets[|wallets| - 1] == row;
      r := WalletCreated(View(row));
    }

    /** `get_wallet`: without an active wallet, "no wallet"; otherwise the
        stored balances are overwritten by the live ones (0 for a missing
        field) only when the balance query reported no error. */
    method GetWallet(userId: string, live: BalanceReply) returns (r: GetResult)
      modifies this
      ensures transactions == old(transactions) && |wallets| == |old(wallets)|
      ensures FindActive(old(wallets), userId).None? ==> r == NoWallet && wallets == old(wallets)
      ensures FindActive(old(wallets), userId).Some? ==>
                var i := FindActive(old(wallets), userId).value;
                var w := old(wallets)[i];
                var w' := if live.error == "" then w.(balanceEth := live.ethBalance.GetOr(0.0),
                                                     balanceUsdt := live.tokenBalance.GetOr(0.0))
                          else w;
                && wallets == old(wallets)[i := w']
                && r == WalletFound(View(w'), live)
    {
      var found := FindActive(wallets, userId);
      if found.None? {
        return NoWallet;
      }
      var i := found.value;
      if live.error == "" {
        wallets := wallets[i := wallets[i].(balanceEth := live.ethBalance.GetOr(0.0),
                                            balanceUsdt := live.tokenBalance.GetOr(0.0))];
      }
      r := WalletFound(View(wallets[i]), live);
    }

    /** `transfer_eth`, checking in order: a request without a JSON body
        fails at `data.get` (500); the address and a truthy amount are
        required (400); the user needs an active wallet (404); an amount
        `float` cannot convert raises (500); the amount must be positive
        (400) and covered by the live ETH balance (400, a missing balance
        read as 0); a service error gives 500; otherwise the transfer is
        initiated.  Only an initiated transfer records a transaction and
        lowers the stored ETH balance by the amount. */
    method TransferEth(userId: string, body: Option<TransferBody>, toFloat: string -> Option<real>,
                       live: BalanceReply, send: SendReply)
      returns (r: TransferResult)
      modifies this
      ensures body.None? ==> r == Crashed
      ensures body.Some? && body.value.toAddress == "" ==> r == BadRequest("to_address is required")
      ensures body.Some? && body.value.toAddress != "" && !AmountGiven(body.value) ==>
                r == BadRequest("amount is required")
      ensures body.Some? && body.value.toAddress != "" && AmountGiven(body.value) ==>
                var amount := AmountValue(body.value.amount, toFloat);
                if FindActive(old(wallets), userId).None? then r == NotFound("No wallet found")
                else if amount.None? then r == Crashed
                else if amount.value <= 0.0 then r == BadRequest("Amount must be greater than 0")
                else if live.ethBalance.GetOr(0.0) < amount.value then r == BadRequest("Insufficient ETH balance")
                else if send.SendFailed? then r == (if send.error == "" then Crashed else TransferError(send.error))
                else r.Initiated?
      ensures !r.Initiated? ==> wallets == old(wallets) && transactions == old(transactions)
      ensures r.Initiated? ==>
                && body.Some? && send.Sent? && FindActive(old(wallets), userId).Some?
                && AmountValue(body.value.amount, toFloat).Some?
                && var i := FindActive(old(wallets), userId).value;
                && var w := old(wallets)[i];
                && var amount := AmountValue(body.value.amount, toFloat).value;
                && amount > 0.0 && live.ethBalance.GetOr(0.0) >= amount
                && r.message == "ETH transfer initiated" && Contains(r.message, "initiated")
                && r.tx == CryptoTxRow(send.txHash, w.address, body.value.toAddress, amount, "ETH",
                                       ReceiptStatusText(send.receiptStatus), w.id)
                && transactions == old(transactions) + [r.tx]
                && wallets == old(wallets)[i := w.(balanceEth := w.balanceEth - amount)]
    {
      if body.None? {
        return Crashed;
      }
      var data := body.value;
      if data.toAddress == "" {
        return BadRequest("to_address is required");
      }
      if !AmountGiven(data) {
        return BadRequest("amount is required");
      }
      var found := FindActive(wallets, userId);
      if found.None? {
        return NotFound("No wallet found");
      }
      var converted := AmountValue(data.amount, toFloat);
      if converted.None? {
        return Crashed;
      }
      var amount := converted.value;
      if amount <= 0.0 {
        return BadRequest("Amount must be greater than 0");
      }
      if live.ethBalance.GetOr(0.0) < amount {
        return BadRequest("Insufficient ETH balance");
      }
      if send.SendFailed? {
        if send.error == "" {
          return Crashed;
        }
        return TransferError(send.error);
      }
      var w := wallets[found.value];
      var tx := CryptoTxRow(send.txHash, w.address, data.toAddress, amount, "ETH",
                            ReceiptStatusText(send.receiptStatus), w.id);
      transactions := transactions + [tx];
      wallets := wallets[found.value := w.(balanceEth := w.balanceEth - amount)];
      assert OccursAt("ETH transfer initiated", "initiated", 13);
      r := Initiated("ETH transfer initiated", tx);
    }

    /** `transfer_token`: the same checks without the balance check, the
        symbol also required; an initiated transfer records a transaction in
        that currency and lowers the stored USDT balance only when the symbol
        is USDT in any case. */
    method TransferToken(userId: string, body: Option<TransferBody>, toFloat: string -> Option<real>, send: SendReply)
      returns (r: TransferResult)
      modifies this
      ensures body.None? ==> r == Crashed
      ensures body.Some? && body.value.toAddress == "" ==> r == BadRequest("to_address is required")
      ensures body.Some? && body.value.toAddress != "" && !AmountGiven(body.value) ==>
                r == BadRequest("amount is required")
      ensures body.Some? && body.value.toAddress != "" && AmountGiven(body.value) && body.value.tokenSymbol == "" ==>
                r == BadRequest("token_symbol is required")
      ensures body.Some? && body.value.toAddress != "" && AmountGiven(body.value) && body.value.tokenSymbol != "" ==>
                var amount := AmountValue(body.value.amount, toFloat);
                if FindActive(old(wallets), userId).None? then r == NotFound("No wallet found")
                else if amount.None? then r == Crashed
                else if amount.value <= 0.0 then r == BadRequest("Amount must be greater than 0")
                else if send.SendFailed? then r == (if send.error == "" then Crashed else TransferError(send.error))
                else r.Initiated?
      ensures !r.Initiated? ==> wallets == old(wallets) && transactions == old(transactions)
      ensures r.Initiated? ==>
                && body.Some? && send.Sent? && FindActive(old(wallets), userId).Some?
                && AmountValue(body.value.amount, toFloat).Some?
                && var i := FindActive(old(wallets), userId).value;
                && var w := old(wallets)[i];
                && var amount := AmountValue(body.value.amount, toFloat).value;
                && var symbol := body.value.tokenSymbol;
                && amount > 0.0
                && r.message == TokenMessage(symbol) && Contains(r.message, "initiated")
                && r.tx == CryptoTxRow(send.txHash, w.address, body.value.toAddress, amount, symbol,
                                       ReceiptStatusText(send.receiptStatus), w.id)
                && transactions == old(transactions) + [r.tx]
                && wallets == old(wallets)[i := if ToUpper(symbol) == "USDT"
                                                then w.(balanceUsdt := w.balanceUsdt - amount) else w]
    {
      if body.None? {
        return Crashed;
      }
      var data := body.value;
      if data.toAddress == "" {
        return BadRequest("to_address is required");
      }
      if !AmountGiven(data) {
        return BadRequest("amount is required");
      }
      if data.tokenSymbol == "" {
        return BadRequest("token_symbol is required");
      }
      var found := FindActive(wallets, userId);
      if found.None? {
        return NotFound("No wallet found");
      }
      var converted := AmountValue(data.amount, toFloat);
      if converted.None? {
        return Crashed;
      }
      var amount := converted.value;
      if amount <= 0.0 {
        return BadRequest("Amount must be greater than 0");
      }
      if send.SendFailed? {
        if send.error == "" {
          return Crashed;
        }
        return TransferError(send.error);
      }
      var w := wallets[found.value];
      var tx := CryptoTxRow(send.txHash, w.address, data.toAddress, amount, data.tokenSymbol,
                            ReceiptStatusText(send.receiptStatus), w.id);
      transactions := transactions + [tx];
      if ToUpper(data.tokenSymbol) == "USDT" {
        wallets := wallets[found.value := w.(balanceUsdt := w.balanceUsdt - amount)];
      } else {
        wallets := wallets[found.value := w];
      }
      r := Initiated(TokenMessage(data.tokenSymbol), tx);
    }
  }
}
