/** The browser-side Web3 service: address shortening, network naming and
    the network-information flags, and the unit helpers with their guards
    against a missing Web3 instance.  The provider's own unit conversion and
    address check are parameters. */
module Web3Service {
  import opened Text
  import Constants

  function MinNat(a: nat, b: nat): nat {
    if a <= b then a else b
  }

  /** The empty string for an empty address, otherwise the first `head`
      characters, "..." and the last `tail` characters; JavaScript's
      `substring` clamps, so an address shorter than `head` or `tail`
      contributes all of itself. */
  function Abbreviate(address: string, head: nat, tail: nat): (r: string)
    ensures address == [] ==> r == []
    ensures address != [] ==>
              r == address[..MinNat(head, |address|)] + "..." + address[|address| - MinNat(tail, |address|)..]
    ensures address != [] && |address| >= head && |address| >= tail ==>
              && |r| == head + 3 + tail
              && r[..head] == address[..head]
              && r[head..head + 3] == "..."
              && r[head + 3..] == address[|address| - tail..]
  {
    if address == [] then []
    else
      var n := |address|;
      var r := JsSubstring(address, 0, head) + "..." + JsSubstring(address, n - tail, n);
      assert JsSubstring(address, 0, head) == address[..MinNat(head, n)];
      assert JsSubstring(address, n - tail, n) == address[n - MinNat(tail, n)..];
      r
  }

  /** `shortenAddress`: six leading and four trailing characters. */
  function ShortenAddress(address: string): (r: string)
    ensures address == [] ==> r == []
    ensures |address| >= 6 ==>
              |r| == 13 && r[..6] == address[..6] && r[6..9] == "..." && r[9..] == address[|address| - 4..]
  {
    Abbreviate(address, 6, 4)
  }

  /** `getNetworkName`, with its own table of the five known chains. */
  function GetNetworkName(networkId: int): (r: string)
    ensures networkId !in {1, 5, 11155111, 137, 80001} ==>
              r == "Unknown Network (" + IntToString(networkId) + ")"
  {
    if networkId == 1 then "Ethereum Mainnet"
    else if networkId == 5 then "Goerli Testnet"
    else if networkId == 11155111 then "Sepolia Testnet"
    else if networkId == 137 then "Polygon Mainnet"
    else if networkId == 80001 then "Mumbai Testnet"
    else "Unknown Network (" + IntToString(networkId) + ")"
  }

  /** The service's names agree with the shared network table, and every id
      outside it gets the "Unknown Network" name. */
  lemma NetworkNamesAgree(networkId: int)
    ensures networkId in Constants.Networks() ==> GetNetworkName(networkId) == Constants.Networks()[networkId].name
    ensures networkId !in Constants.Networks() ==>
              GetNetworkName(networkId) == "Unknown Network (" + IntToString(networkId) + ")"
  {
    Constants.NetworkFlags();
  }

  datatype NetworkInfo = NetworkInfo(id: int, name: string, isMainnet: bool, isTestnet: bool)

  /** The information record for a chain id: main network only for id 1,
      test network only for Goerli and Sepolia. */
  function NetworkInfoOf(networkId: int): (r: NetworkInfo)
    ensures r.id == networkId && r.name == GetNetworkName(networkId)
    ensures r.isMainnet <==> networkId == 1
    ensures r.isTestnet <==> networkId == 5 || networkId == 11155111
    ensures !(r.isMainnet && r.isTestnet)
  {
    NetworkInfo(networkId, GetNetworkName(networkId), networkId == 1, networkId == 5 || networkId == 11155111)
  }

  /** The service and the shared table disagree on test networks: Mumbai is
      a test network in the table but is not flagged by the service, and
      neither is Polygon flagged as a main network. */
  lemma TestnetFlagsDiffer()
    ensures 80001 in Constants.Networks() && Constants.Networks()[80001].testnet && !NetworkInfoOf(80001).isTestnet
    ensures 137 in Constants.Networks() && !Constants.Networks()[137].testnet && !NetworkInfoOf(137).isMainnet
  {
    Constants.NetworkFlags();
  }

  /** The provider operations the service delegates to. */
  datatype Web3Utils = Web3Utils(
    fromWei: (string, string) -> string,
    toWei: (string, string) -> string,
    isAddress: string -> bool,
    getNetworkId: () -> Option<int>)

  /** The service object.  Construction sets `web3` on every path: to the
      injected browser wallet when there is one, otherwise (and when that
      set-up throws) to the configured read-only provider.  The helpers keep
      the source's `if (!this.web3)` guards, so `None` is a state the field
      can hold but not one construction leaves behind. */
  class Web3Client {
    var web3: Option<Web3Utils>

    /** `initWeb3`, with `wallet` the browser wallet's utilities (`None`
        when no wallet is injected or its set-up throws) and `readOnly`
        those of the configured provider. */
    constructor (wallet: Option<Web3Utils>, readOnly: Web3Utils)
      ensures web3.Some?
      ensures web3 == if wallet.Some? then wallet else Some(readOnly)
    {
      if wallet.Some? {
        web3 := wallet;
      } else {
        web3 := Some(readOnly);
      }
    }

    function FormatEth(wei: string): (r: string)
      reads this
      ensures web3.None? ==> r == "0"
      ensures web3.Some? ==> r == web3.value.fromWei(wei, "ether")
    {
      if web3.None? then "0" else web3.value.fromWei(wei, "ether")
    }

    function FormatGwei(wei: string): (r: string)
      reads this
      ensures web3.None? ==> r == "0"
      ensures web3.Some? ==> r == web3.value.fromWei(wei, "gwei")
    {
      if web3.None? then "0" else web3.value.fromWei(wei, "gwei")
    }

    /** `toWei`, given the amount as its `toString()` text. */
    function ToWei(eth: string): (r: string)
      reads this
      ensures web3.None? ==> r == "0"
      ensures web3.Some? ==> r == web3.value.toWei(eth, "ether")
    {
      if web3.None? then "0" else web3.value.toWei(eth, "ether")
    }

    function IsValidAddress(address: string): (r: bool)
      reads this
      ensures web3.None? ==> !r
      ensures web3.Some? ==> r == web3.value.isAddress(address)
    {
      web3.Some? && web3.value.isAddress(address)
    }

    /** `getNetworkInfo`: nothing without a provider or when the id query
        fails (`None`), otherwise the record for the reported id. */
    function GetNetworkInfo(): (r: Option<NetworkInfo>)
      reads this
      ensures web3.None? ==> r.None?
      ensures web3.Some? ==> (r.Some? <==> web3.value.getNetworkId().Some?)
      ensures r.Some? ==> web3.Some? && r.value == NetworkInfoOf(web3.value.getNetworkId().value)
    {
      if web3.None? then None
      else
        var id := web3.value.getNetworkId();
        if id.None? then None else Some(NetworkInfoOf(id.value))
    }
  }
}
