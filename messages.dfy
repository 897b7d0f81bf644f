/**
 * The protobuf messages the handlers read and write. Nested messages are
 * held by reference in Go: a handler can mutate them in place (the address, the
 * wallet hash) and a request may leave them nil, so they are classes
 * reached through nullable references. Top-level requests and responses are
 * never mutated and are values.
 */
module Messages {
  import opened Types
  import WalletPool

  /** `pbCommon.MnemonicWalletIdentity`. */
  class WalletIdentity {
    var walletUUID: string
    var walletHash: string

    constructor (uuidText: string, hash: string)
      ensures walletUUID == uuidText && walletHash == hash
    {
      walletUUID := uuidText;
      walletHash := hash;
    }
  }

  /** `pbCommon.AccountIdentity`; nil `Parameters` is `None`. */
  class AccountIdentity {
    var address: string
    var parameters: Option<Params>

    constructor (addr: string, params: Option<Params>)
      ensures address == addr && parameters == params
    {
      address := addr;
      parameters := params;
    }
  }

  datatype GetAccountRequest = GetAccountRequest(walletIdentifier: WalletIdentity?, accountIdentifier: AccountIdentity?)

  datatype LoadAccountRequest = LoadAccountRequest(walletIdentifier: WalletIdentity?, accountIdentifier: AccountIdentity?)

  /** `TimeToLive` is a `uint64`. */
  datatype LoadMnemonicRequest = LoadMnemonicRequest(walletIdentifier: WalletIdentity?, timeToLive: nat, encryptedMnemonicData: Bytes)

  datatype EncryptMnemonicRequest = EncryptMnemonicRequest(walletIdentifier: WalletIdentity?, mnemonicData: Bytes)

  datatype UnLoadMnemonicRequest = UnLoadMnemonicRequest(walletIdentifier: WalletIdentity?)

  datatype GenerateMnemonicRequest = GenerateMnemonicRequest(walletIdentifier: WalletIdentity?)

  datatype SignDataRequest = SignDataRequest(walletIdentifier: WalletIdentity?, accountIdentifier: AccountIdentity?)

  datatype GetMultipleAccountRequest = GetMultipleAccountRequest(walletIdentifier: WalletIdentity?)

  /** Encrypt and generate responses carry the request's own identifier object. */
  datatype MnemonicResponse = MnemonicResponse(walletIdentifier: WalletIdentity?, encryptedMnemonicData: Bytes)

  datatype AccountResponse = AccountResponse(walletIdentifier: WalletIdentity?, accountIdentifier: AccountIdentity?)

  datatype SignDataResponse = SignDataResponse(walletIdentifier: WalletIdentity?, accountIdentifier: AccountIdentity?, signedData: Bytes)

  datatype GetMultipleAccountResponse = GetMultipleAccountResponse(
    walletIdentifier: WalletIdentity?,
    accountIdentitiesCount: nat,
    accountIdentifier: Option<seq<WalletPool.AccountRecord>>)
}
