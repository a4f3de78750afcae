/** Identity selection of the multi-wallet provider: which connected wallet supplies the account,
    its display name, its address type and the signature the transport authenticates with. */
module Identity {
  import opened Shared
  import opened Strings

  /** The `chain` cell: `''`, `'ethereum'` or `'solana'`. */
  datatype Chain = NoChain | Ethereum | Solana

  /** A rings-node `UnsignedInfo`, recorded by the address and type it was built from. */
  datatype UnsignedInfo = UnsignedInfo(address: string, kind: AddressType)

  /** The wallet and encoding calls the provider makes, whose code is not part of this model:
      `auth` is `unsignedInfo.auth`; `ethSign` the Ethereum signer's `signMessage` (hex text,
      `None` when the wallet rejects); `hexToBytes` the hex decoder; `utf8` the text encoder;
      `solSign` the Solana wallet's `signMessage` (`None` when it rejects); `formatAddress` the
      display formatter. */
  datatype Wallets = Wallets(
    auth: UnsignedInfo -> string,
    ethSign: string -> Option<string>,
    hexToBytes: string -> seq<bv8>,
    utf8: string -> seq<bv8>,
    solSign: seq<bv8> -> Option<seq<bv8>>,
    formatAddress: string -> string)

  /** The chain the selection effect picks: Ethereum whenever it has an account and a provider,
      whatever the Solana wallet says; otherwise Solana when its wallet is connected and has a
      public key (`solKey`, its base58 text); otherwise none. */
  function ChainFor(ethAccount: string, hasProvider: bool, solConnected: bool, solKey: Option<string>): (c: Chain)
    ensures c == Ethereum <==> ethAccount != "" && hasProvider
    ensures c == Solana <==> !(ethAccount != "" && hasProvider) && solConnected && solKey.Some?
    ensures c == NoChain <==> !(ethAccount != "" && hasProvider) && !(solConnected && solKey.Some?)
  {
    if ethAccount != "" && hasProvider then Ethereum
    else if solConnected && solKey.Some? then Solana
    else NoChain
  }

  /** The unsigned challenge each branch builds. */
  function EthereumInfo(ethAccount: string): UnsignedInfo
  {
    UnsignedInfo(ethAccount, Default)
  }

  function SolanaInfo(key: string): UnsignedInfo
  {
    UnsignedInfo(key, Ed25519)
  }

  /** The Ethereum signature: the hex decoding of what the signer returns for the challenge. */
  function EthereumSignature(w: Wallets, ethAccount: string): Option<seq<bv8>>
  {
    match w.ethSign(w.auth(EthereumInfo(ethAccount)))
    case Some(hex) => Some(w.hexToBytes(hex))
    case None => None
  }

  /** The Solana signature: the bytes the wallet returns over the UTF-8 encoding of the challenge. */
  function SolanaSignature(w: Wallets, key: string): Option<seq<bv8>>
  {
    w.solSign(w.utf8(w.auth(SolanaInfo(key))))
  }

  /** The provider's six state cells. */
  class MultiWeb3 {
    var account: string
    var accountName: string
    var signature: Option<seq<bv8>>
    var chain: Chain
    var unsignedInfo: Option<UnsignedInfo>
    var addressType: AddressType

    constructor ()
      ensures account == "" && accountName == "" && signature == None
      ensures chain == NoChain && unsignedInfo == None && addressType == Default
    {
      account, accountName, signature := "", "", None;
      chain, unsignedInfo, addressType := NoChain, None, Default;
    }

    /** The selection effect, with the asynchronous signing taken to complete before the next
        run. A rejected signing sets nothing more. */
    method SelectIdentity(ethAccount: string, hasProvider: bool, solConnected: bool, solKey: Option<string>, w: Wallets)
      modifies this
      ensures chain == ChainFor(ethAccount, hasProvider, solConnected, solKey)
      ensures chain == Ethereum ==>
        account == Lower(ethAccount) &&
        accountName == old(accountName) && addressType == old(addressType) &&
        (EthereumSignature(w, ethAccount).Some? ==>
          unsignedInfo == Some(EthereumInfo(ethAccount)) && signature == EthereumSignature(w, ethAccount)) &&
        (EthereumSignature(w, ethAccount).None? ==>
          unsignedInfo == old(unsignedInfo) && signature == old(signature))
      ensures chain == Solana ==>
        account == solKey.value && accountName == w.formatAddress(solKey.value) && addressType == Ed25519 &&
        (SolanaSignature(w, solKey.value).Some? ==>
          unsignedInfo == Some(SolanaInfo(solKey.value)) && signature == SolanaSignature(w, solKey.value)) &&
        (SolanaSignature(w, solKey.value).None? ==>
          unsignedInfo == old(unsignedInfo) && signature == old(signature))
      ensures chain == NoChain ==>
        account == "" && signature == None && addressType == Default &&
        unsignedInfo == old(unsignedInfo) && accountName == old(accountName)
    {
      if ethAccount != "" && hasProvider {
        chain := Ethereum;
        account := Lower(ethAccount);
        var sig := EthereumSignature(w, ethAccount);
        if sig.Some? {
          unsignedInfo := Some(EthereumInfo(ethAccount));
          signature := sig;
        }
      } else if solConnected && solKey.Some? {
        var key := solKey.value;
        chain := Solana;
        account := key;
        accountName := w.formatAddress(key);
        addressType := Ed25519;
        var sig := SolanaSignature(w, key);
        if sig.Some? {
          unsignedInfo := Some(SolanaInfo(key));
          signature := sig;
        }
      } else {
        chain := NoChain;
        account := "";
        signature := None;
        addressType := Default;
      }
    }

    /** The account-name effect: the ENS name overwrites `accountName` only when there is both an
        Ethereum account and a name. */
    method ApplyEnsName(ethAccount: string, name: string)
      modifies this`accountName
      ensures accountName == if ethAccount != "" && name != "" then name else old(accountName)
    {
      if ethAccount != "" && name != "" {
        accountName := name;
      }
    }
  }

  /** A Solana session followed by an Ethereum one: the Ethereum branch leaves the address type
      at `ED25519`, so the presence announcement would carry that type for an Ethereum account. */
  method SolanaThenEthereum(ethAccount: string, solKey: string, w: Wallets) returns (chain: Chain, kind: AddressType)
    requires ethAccount != ""
    ensures chain == Ethereum && kind == Ed25519
  {
    var id := new MultiWeb3();
    id.SelectIdentity("", false, true, Some(solKey), w);
    id.SelectIdentity(ethAccount, true, true, Some(solKey), w);
    chain, kind := id.chain, id.addressType;
  }
}
