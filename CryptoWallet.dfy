/** The crypto-wallet page: address formatting, the transfer guards and the
    choice between an ETH and a token transfer, the kept slice of recent
    transactions and the total shown in US dollars.  The wallet service's
    replies are parameters: `None` stands for a call that threw. */
module CryptoWallet {
  import opened Text
  import opened Seqs
  import Web3Service

  /** `formatAddress`: eight leading and six trailing characters. */
  function FormatAddress(address: string): (r: string)
    ensures address == [] ==> r == []
    ensures |address| >= 8 ==>
              |r| == 17 && r[..8] == address[..8] && r[8..11] == "..." && r[11..] == address[|address| - 6..]
  {
    Web3Service.Abbreviate(address, 8, 6)
  }

  datatype WalletForm = WalletForm(toAddress: string, amount: string, currency: string)

  const EmptyWalletForm: WalletForm := WalletForm("", "", "ETH")

  /** A call to the wallet service.  The amount is the parsed number, `None`
      standing for NaN. */
  datatype TransferCall =
    | TransferEth(toAddress: string, amount: Option<real>)
    | TransferToken(toAddress: string, amount: Option<real>, symbol: string)

  datatype TransferPlan = Refused(message: string) | Send(call: TransferCall)

  const FillAllFields: string := "Please fill all fields"
  const AmountNotPositive: string := "Amount must be greater than 0"

  /** The guards of `handleTransfer` and its dispatch: an empty address or
      amount is refused, then a parsed amount of zero or less; otherwise ETH
      goes to the ETH transfer and any other currency to the token transfer
      under that symbol.  An amount that does not parse is not refused. */
  function PlanTransfer(form: WalletForm, parse: string -> Option<real>): (r: TransferPlan)
    ensures r == Refused(FillAllFields) <==> form.toAddress == "" || form.amount == ""
    ensures r == Refused(AmountNotPositive) <==>
              form.toAddress != "" && form.amount != "" && parse(form.amount).Some? && parse(form.amount).value <= 0.0
    ensures r.Send? ==>
              && r.call.toAddress == form.toAddress && r.call.amount == parse(form.amount)
              && (parse(form.amount).Some? ==> parse(form.amount).value > 0.0)
    ensures r.Send? ==> (r.call.TransferEth? <==> form.currency == "ETH")
    ensures r.Send? && r.call.TransferToken? ==> r.call.symbol == form.currency
  {
    if form.toAddress == "" || form.amount == "" then Refused(FillAllFields)
    else if parse(form.amount).Some? && parse(form.amount).value <= 0.0 then Refused(AmountNotPositive)
    else if form.currency == "ETH" then Send(TransferEth(form.toAddress, parse(form.amount)))
    else Send(TransferToken(form.toAddress, parse(form.amount), form.currency))
  }

  /** The balances reported by the service; a missing field reads as
      `undefined`. */
  datatype LiveBalance = LiveBalance(ethBalance: Option<real>, tokenBalance: Option<real>)

  const EthPriceUsd: real := 1800.0

  /** The dollar total: ETH at 1800 dollars plus the token balance, defined
      only when both balances are present (otherwise the page shows NaN). */
  function UsdTotal(balance: LiveBalance): (r: Option<real>)
    ensures r.Some? <==> balance.ethBalance.Some? && balance.tokenBalance.Some?
    ensures r.Some? ==> r.value - balance.tokenBalance.value == balance.ethBalance.value * EthPriceUsd
  {
    if balance.ethBalance.Some? && balance.tokenBalance.Some? then
      Some(balance.ethBalance.value * EthPriceUsd + balance.tokenBalance.value)
    else None
  }

  datatype Wallet = Wallet(address: string, network: string)

  datatype WalletReply = WalletReply(hasWallet: bool, wallet: Wallet, liveBalance: LiveBalance)

  const MaxShownTransactions: nat := 10

  class WalletPage<Tx> {
    var wallet: Option<Wallet>
    var balance: LiveBalance
    var form: WalletForm
    var transactions: seq<Tx>

    constructor ()
      ensures wallet == None && balance == LiveBalance(None, None) && form == EmptyWalletForm && transactions == []
    {
      wallet := None;
      balance := LiveBalance(None, None);
      form := EmptyWalletForm;
      transactions := [];
    }

    /** `loadWalletData`: a wallet reply with a wallet replaces the wallet
        and the balances; the transaction list keeps at most the first ten
        stored records.  A wallet call that throws skips the transaction
        call too; a transaction call that throws keeps the list. */
    method LoadWalletData(walletReply: Option<WalletReply>, txReply: Option<seq<Tx>>)
      modifies this
      ensures form == old(form)
      ensures walletReply.Some? && walletReply.value.hasWallet ==>
                wallet == Some(walletReply.value.wallet) && balance == walletReply.value.liveBalance
      ensures !(walletReply.Some? && walletReply.value.hasWallet) ==> wallet == old(wallet) && balance == old(balance)
      ensures walletReply.Some? && txReply.Some? ==> transactions == Take(txReply.value, MaxShownTransactions)
      ensures !(walletReply.Some? && txReply.Some?) ==> transactions == old(transactions)
    {
      if walletReply.None? {
        return;
      }
      if walletReply.value.hasWallet {
        wallet := Some(walletReply.value.wallet);
        balance := walletReply.value.liveBalance;
      }
      if txReply.Some? {
        transactions := Take(txReply.value, MaxShownTransactions);
      }
    }

    /** `handleTransfer`: a refused form sends nothing; a sent transfer whose
        reply message contains "initiated" resets the form.  `send` gives the
        reply message, or `None` when the call throws. */
    method HandleTransfer(parse: string -> Option<real>, send: TransferCall -> Option<string>)
      returns (plan: TransferPlan, reset: bool)
      modifies this
      ensures plan == PlanTransfer(old(form), parse)
      ensures reset <==> plan.Send? && send(plan.call).Some? && Contains(send(plan.call).value, "initiated")
      ensures reset ==> form == EmptyWalletForm
      ensures !reset ==> form == old(form)
      ensures wallet == old(wallet) && balance == old(balance) && transactions == old(transactions)
    {
      plan := PlanTransfer(form, parse);
      reset := false;
      if plan.Refused? {
        return;
      }
      var reply := send(plan.call);
      if reply.Some? && Contains(reply.value, "initiated") {
        form := EmptyWalletForm;
        reset := true;
      }
    }
  }
}
