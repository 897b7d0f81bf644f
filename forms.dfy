/**
 * Request forms: each copies the fields of one request into its own fields
 * step by step, reporting the first required part that is missing and
 * passing on the error of the UUID parser. `uuid.Parse` (the textual UUID
 * form of RFC 4122, section 3) is a function parameter. Every form answers
 * `(valid, err)` with `valid` true exactly when `err` is nil.
 */
module Forms {
  import opened Types
  import opened Messages

  const WalletIdentityMissing: Error := MissedRequiredData("Wallet identity")
  const AddressIdentityMissing: Error := MissedRequiredData("Address identity")
  const AddressParametersMissing: Error := MissedRequiredData("Address identity parameters")

  /** `AccountForm`, filled from a GetAccount or a LoadAccount request. */
  class AccountForm {
    var walletUUID: string
    var walletUUIDRaw: UUID
    var accountParameters: Option<Params>   // nil until validation copies it

    /** `&AccountForm{}`: every field at its zero value. */
    constructor ()
      ensures walletUUID == "" && walletUUIDRaw == 0 && accountParameters.None?
    {
      walletUUID := "";
      walletUUIDRaw := 0;
      accountParameters := None;
    }

    /**
     * `validate`: the text is copied before it is parsed, the parsed value
     * is stored even when parsing fails, and the parameters are copied only
     * after a successful parse.
     */
    method Validate(mnemoIdentifier: WalletIdentity, accIdentifier: AccountIdentity, parse: string -> ParseOutcome)
      returns (valid: bool, err: Option<Error>)
      modifies this
      ensures valid <==> err.None?
      ensures err == parse(mnemoIdentifier.walletUUID).err
      ensures walletUUID == mnemoIdentifier.walletUUID
      ensures walletUUIDRaw == parse(mnemoIdentifier.walletUUID).value
      ensures accountParameters == if valid then accIdentifier.parameters else old(accountParameters)
    {
      walletUUID := mnemoIdentifier.walletUUID;
      var parsed := parse(mnemoIdentifier.walletUUID);
      walletUUIDRaw, err := parsed.value, parsed.err;
      if err.Some? {
        return false, err;
      }
      accountParameters := accIdentifier.parameters;
      return true, None;
    }

    /**
     * `LoadAndValidateLoadAddrReq`: the wallet identity, the account
     * identity and its parameters are required, checked in that order;
     * a missing one leaves the form untouched.
     */
    method LoadAndValidateLoadAddrReq(req: LoadAccountRequest, parse: string -> ParseOutcome)
      returns (valid: bool, err: Option<Error>)
      modifies this
      ensures valid <==> err.None?
      ensures req.walletIdentifier == null ==> err == Some(WalletIdentityMissing) && unchanged(this)
      ensures req.walletIdentifier != null && req.accountIdentifier == null ==>
        err == Some(AddressIdentityMissing) && unchanged(this)
      ensures req.walletIdentifier != null && req.accountIdentifier != null && req.accountIdentifier.parameters.None? ==>
        err == Some(AddressParametersMissing) && unchanged(this)
      ensures req.walletIdentifier != null && req.accountIdentifier != null && req.accountIdentifier.parameters.Some? ==>
        && err == parse(req.walletIdentifier.walletUUID).err
        && walletUUID == req.walletIdentifier.walletUUID
        && walletUUIDRaw == parse(req.walletIdentifier.walletUUID).value
        && accountParameters == if valid then req.accountIdentifier.parameters else old(accountParameters)
    {
      if req.walletIdentifier == null {
        return false, Some(WalletIdentityMissing);
      }
      if req.accountIdentifier == null {
        return false, Some(AddressIdentityMissing);
      }
      if req.accountIdentifier.parameters.None? {
        return false, Some(AddressParametersMissing);
      }
      valid, err := Validate(req.walletIdentifier, req.accountIdentifier, parse);
    }

    /** `LoadAndValidateGetAddrReq`: the same checks, in the same order, on a GetAccount request. */
    method LoadAndValidateGetAddrReq(req: GetAccountRequest, parse: string -> ParseOutcome)
      returns (valid: bool, err: Option<Error>)
      modifies this
      ensures valid <==> err.None?
      ensures req.walletIdentifier == null ==> err == Some(WalletIdentityMissing) && unchanged(this)
      ensures req.walletIdentifier != null && req.accountIdentifier == null ==>
        err == Some(AddressIdentityMissing) && unchanged(this)
      ensures req.walletIdentifier != null && req.accountIdentifier != null && req.accountIdentifier.parameters.None? ==>
        err == Some(AddressParametersMissing) && unchanged(this)
      ensures req.walletIdentifier != null && req.accountIdentifier != null && req.accountIdentifier.parameters.Some? ==>
        && err == parse(req.walletIdentifier.walletUUID).err
        && walletUUID == req.walletIdentifier.walletUUID
        && walletUUIDRaw == parse(req.walletIdentifier.walletUUID).value
        && accountParameters == if valid then req.accountIdentifier.parameters else old(accountParameters)
    {
      if req.walletIdentifier == null {
        return false, Some(WalletIdentityMissing);
      }
      if req.accountIdentifier == null {
        return false, Some(AddressIdentityMissing);
      }
      if req.accountIdentifier.parameters.None? {
        return false, Some(AddressParametersMissing);
      }
      valid, err := Validate(req.walletIdentifier, req.accountIdentifier, parse);
    }
  }

  /** `LoadMnemonicForm`. */
  class LoadMnemonicForm {
    var walletUUID: string
    var walletUUIDRaw: UUID
    var timeToLive: nat
    var encryptedMnemonicData: Bytes

    /** `&LoadMnemonicForm{}`: every field at its zero value. */
    constructor ()
      ensures walletUUID == "" && walletUUIDRaw == 0 && timeToLive == 0 && encryptedMnemonicData == []
    {
      walletUUID := "";
      walletUUIDRaw := 0;
      timeToLive := 0;
      encryptedMnemonicData := [];
    }

    /**
     * `LoadAndValidate`: only the wallet identity is required; the lifetime
     * and the ciphertext are copied as they are, zero and empty included.
     */
    method LoadAndValidate(req: LoadMnemonicRequest, parse: string -> ParseOutcome)
      returns (valid: bool, err: Option<Error>)
      modifies this
      ensures valid <==> err.None?
      ensures req.walletIdentifier == null ==> err == Some(WalletIdentityMissing) && unchanged(this)
      ensures req.walletIdentifier != null ==>
        && err == parse(req.walletIdentifier.walletUUID).err
        && walletUUID == req.walletIdentifier.walletUUID
        && walletUUIDRaw == parse(req.walletIdentifier.walletUUID).value
        && timeToLive == (if valid then req.timeToLive else old(timeToLive))
        && encryptedMnemonicData == (if valid then req.encryptedMnemonicData else old(encryptedMnemonicData))
    {
      if req.walletIdentifier == null {
        return false, Some(WalletIdentityMissing);
      }
      walletUUID := req.walletIdentifier.walletUUID;
      var parsed := parse(req.walletIdentifier.walletUUID);
      walletUUIDRaw, err := parsed.value, parsed.err;
      if err.Some? {
        return false, err;
      }
      timeToLive := req.timeToLive;
      encryptedMnemonicData := req.encryptedMnemonicData;
      return true, None;
    }
  }

  /** `EncryptMnemonicForm`. */
  class EncryptMnemonicForm {
    var walletUUID: string
    var walletUUIDRaw: UUID
    var transitEncryptedMnemonicData: Bytes

    /** `&EncryptMnemonicForm{}`: every field at its zero value. */
    constructor ()
      ensures walletUUID == "" && walletUUIDRaw == 0 && transitEncryptedMnemonicData == []
    {
      walletUUID := "";
      walletUUIDRaw := 0;
      transitEncryptedMnemonicData := [];
    }

    /** `LoadAndValidate`: only the wallet identity is required; the data is copied as it is, empty included. */
    method LoadAndValidate(req: EncryptMnemonicRequest, parse: string -> ParseOutcome)
      returns (valid: bool, err: Option<Error>)
      modifies this
      ensures valid <==> err.None?
      ensures req.walletIdentifier == null ==> err == Some(WalletIdentityMissing) && unchanged(this)
      ensures req.walletIdentifier != null ==>
        && err == parse(req.walletIdentifier.walletUUID).err
        && walletUUID == req.walletIdentifier.walletUUID
        && walletUUIDRaw == parse(req.walletIdentifier.walletUUID).value
        && transitEncryptedMnemonicData == (if valid then req.mnemonicData else old(transitEncryptedMnemonicData))
    {
      if req.walletIdentifier == null {
        return false, Some(WalletIdentityMissing);
      }
      walletUUID := req.walletIdentifier.walletUUID;
      var parsed := parse(req.walletIdentifier.walletUUID);
      walletUUIDRaw, err := parsed.value, parsed.err;
      if err.Some? {
        return false, err;
      }
      transitEncryptedMnemonicData := req.mnemonicData;
      return true, None;
    }
  }

  /** `UnLoadMnemonicForm`. */
  class UnLoadMnemonicForm {
    var walletUUID: string
    var walletUUIDRaw: UUID

    /** `&UnLoadMnemonicForm{}`: every field at its zero value. */
    constructor ()
      ensures walletUUID == "" && walletUUIDRaw == 0
    {
      walletUUID := "";
      walletUUIDRaw := 0;
    }

    /** `LoadAndValidate`: the text is kept even when it does not parse. */
    method LoadAndValidate(req: UnLoadMnemonicRequest, parse: string -> ParseOutcome)
      returns (valid: bool, err: Option<Error>)
      modifies this
      ensures valid <==> err.None?
      ensures req.walletIdentifier == null ==> err == Some(WalletIdentityMissing) && unchanged(this)
      ensures req.walletIdentifier != null ==>
        && err == parse(req.walletIdentifier.walletUUID).err
        && walletUUID == req.walletIdentifier.walletUUID
        && walletUUIDRaw == parse(req.walletIdentifier.walletUUID).value
    {
      if req.walletIdentifier == null {
        return false, Some(WalletIdentityMissing);
      }
      walletUUID := req.walletIdentifier.walletUUID;
      var parsed := parse(req.walletIdentifier.walletUUID);
      walletUUIDRaw, err := parsed.value, parsed.err;
      if err.Some? {
        return false, err;
      }
      return true, None;
    }
  }
}
