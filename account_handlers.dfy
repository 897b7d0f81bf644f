/**
 * The RPC handlers that serve a loaded wallet: one address, several
 * accounts, a signature, and the unload of several wallets. Each maps the
 * form's answer and then the pool's answer to a gRPC status; the mapping is
 * a function, and `Handle` composes it with the pool, so what a client sees
 * for a wallet the pool does not hold can be stated.
 *
 * Only `AccountForm` is part of this model; the forms of the other three
 * handlers (`SignDataForm`, `derivationAddressByRangeForm`,
 * `UnLoadMultipleMnemonicForm`) are given by their answers.
 */
module AccountHandlers {
  import opened Types
  import opened Messages
  import opened Forms
  import opened WalletPool

  // ---- the status mappings ----

  /**
   * The address step of GetDerivationAddress: any pool error is the generic
   * internal error, whatever it was; a nil address means the wallet is not
   * loaded; otherwise the address is the pool's.
   */
  function AddressStatus(ans: AddressAnswer): (r: Result<string, HandlerError>)
    ensures ans.err.Some? ==> r == Err(GenericInternal)
    ensures ans.err.None? && ans.address.None? ==> r == Err(Status(ResourceExhausted, WalletNotLoaded))
    ensures r.Ok? <==> ans.err.None? && ans.address.Some?
    ensures r.Ok? ==> r.value == ans.address.value
    ensures r.Err? ==> r.error.Status? && r.error.code != InvalidArgument
  {
    if ans.err.Some? then Err(GenericInternal)
    else if ans.address.None? then Err(Status(ResourceExhausted, WalletNotLoaded))
    else Ok(ans.address.value)
  }

  /**
   * The signing step of Sign: any pool error is the generic internal error,
   * `ErrPassedWalletNotFound` included; a nil address or a nil signature
   * means the wallet is not loaded; otherwise both are the pool's.
   */
  function SignStatus(ans: SignAnswer): (r: Result<(string, Bytes), HandlerError>)
    ensures ans.err.Some? ==> r == Err(GenericInternal)
    ensures ans.err.None? && (ans.address.None? || ans.signedData.None?) ==> r == Err(Status(ResourceExhausted, WalletNotLoaded))
    ensures r.Ok? <==> ans.err.None? && ans.address.Some? && ans.signedData.Some?
    ensures r.Ok? ==> r.value == (ans.address.value, ans.signedData.value)
    ensures r.Err? ==> r.error.Status? && r.error.code != InvalidArgument
  {
    if ans.err.Some? then Err(GenericInternal)
    else if ans.address.None? || ans.signedData.None? then Err(Status(ResourceExhausted, WalletNotLoaded))
    else Ok((ans.address.value, ans.signedData.value))
  }

  /**
   * GetDerivationsAddresses: a failed form, then a pool error, then a zero
   * count (whatever the list) are reported in that order; a response
   * carries the pool's count and list unchanged and the request's identity.
   */
  function MultipleAccountsReply(form: FormOutcome, walletIdentifier: WalletIdentity?, ans: AccountsAnswer)
    : (r: Reply<GetMultipleAccountResponse>)
    ensures form.err.Some? ==> r == Fail(FormFailure(form.valid, form.err.value))
    ensures form.err.None? && ans.err.Some? ==> r == Fail(GenericInternal)
    ensures form.err.None? && ans.err.None? && ans.count == 0 ==> r == Fail(Status(ResourceExhausted, WalletNotLoadedOrExpired))
    ensures r.Respond? <==> form.err.None? && ans.err.None? && ans.count != 0
    ensures r.Respond? ==> r.resp == GetMultipleAccountResponse(walletIdentifier, ans.count, ans.accounts)
  {
    if form.err.Some? then Fail(FormFailure(form.valid, form.err.value))
    else if ans.err.Some? then Fail(GenericInternal)
    else if ans.count == 0 then Fail(Status(ResourceExhausted, WalletNotLoadedOrExpired))
    else Respond(GetMultipleAccountResponse(walletIdentifier, ans.count, ans.accounts))
  }

  /**
   * UnLoadMultipleMnemonics: a failed form, then a pool error; success is a
   * nil response with a nil error.
   */
  function UnloadMultipleReply(form: FormOutcome, poolErr: Option<Error>): (r: Reply<()>)
    ensures form.err.Some? ==> r == Fail(FormFailure(form.valid, form.err.value))
    ensures form.err.None? && poolErr.Some? ==> r == Fail(GenericInternal)
    ensures r.Respond? <==> form.err.None? && poolErr.None?
  {
    if form.err.Some? then Fail(FormFailure(form.valid, form.err.value))
    else if poolErr.Some? then Fail(GenericInternal)
    else Respond(())
  }

  // ---- the handlers, composed with the pool ----

  /** What `SignDataForm` hands the handler. */
  datatype SignDataFormOutcome = SignDataFormOutcome(
    outcome: FormOutcome, walletUUIDRaw: UUID, accountParameters: Params, dataForSign: Bytes)

  /** What `derivationAddressByRangeForm` hands the handler. */
  datatype RangeFormOutcome = RangeFormOutcome(outcome: FormOutcome, mnemonicWalletUUIDRaw: UUID, accountsParameters: Params)

  /** What `UnLoadMultipleMnemonicForm` hands the handler. */
  datatype UnloadMultipleFormOutcome = UnloadMultipleFormOutcome(outcome: FormOutcome, mnemonicWalletsUUIDs: seq<UUID>)

  /** `getDerivationAddressHandler`. */
  class GetDerivationAddressHandler {
    const walletPoolSvc: Pool

    constructor (pool: Pool)
      ensures walletPoolSvc == pool
    {
      walletPoolSvc := pool;
    }

    /**
     * `Handle`: on success the request's own account identity receives the
     * address and is echoed with the wallet identity. A wallet the pool
     * does not hold is ResourceExhausted "wallet not loaded"; one past
     * shutdown but not yet reaped panics in the pool.
     */
    method Handle(req: GetAccountRequest, parse: string -> ParseOutcome) returns (r: Outcome<Reply<AccountResponse>>)
      modifies req.accountIdentifier
      ensures req.walletIdentifier == null ==> r == Returned(Fail(Status(InvalidArgument, ErrorText(WalletIdentityMissing))))
      ensures req.walletIdentifier != null && req.accountIdentifier == null ==>
        r == Returned(Fail(Status(InvalidArgument, ErrorText(AddressIdentityMissing))))
      ensures req.walletIdentifier != null && req.accountIdentifier != null && req.accountIdentifier.parameters.None? ==>
        r == Returned(Fail(Status(InvalidArgument, ErrorText(AddressParametersMissing))))
      ensures req.accountIdentifier != null ==> req.accountIdentifier.parameters == old(req.accountIdentifier.parameters)
      ensures req.walletIdentifier != null && req.accountIdentifier != null && req.accountIdentifier.parameters.Some? ==>
        var parsed := parse(req.walletIdentifier.walletUUID);
        var id := parsed.value;
        && (parsed.err.Some? ==> r == Returned(Fail(Status(InvalidArgument, ErrorText(parsed.err.value)))))
        && (parsed.err.None? && id !in walletPoolSvc.walletUnits ==>
              r == Returned(Fail(Status(ResourceExhausted, WalletNotLoaded))))
        && (parsed.err.None? && id in walletPoolSvc.walletUnits && walletPoolSvc.walletUnits[id].unit.None? ==> r == NilDeref)
        && (parsed.err.None? && id in walletPoolSvc.walletUnits && walletPoolSvc.walletUnits[id].unit.Some? ==>
              var status := AddressStatus(walletPoolSvc.walletUnits[id].unit.value.getAccountAddress(req.accountIdentifier.parameters.value));
              && (status.Err? ==> r == Returned(Fail(status.error)))
              && (status.Ok? ==>
                    && r == Returned(Respond(AccountResponse(req.walletIdentifier, req.accountIdentifier)))
                    && req.accountIdentifier.address == status.value))
      ensures req.accountIdentifier != null && !(r.Returned? && r.value.Respond?) ==>
        req.accountIdentifier.address == old(req.accountIdentifier.address)
    {
      var vf := new AccountForm();
      var valid, err := vf.LoadAndValidateGetAddrReq(req, parse);
      if err.Some? {
        return Returned(Fail(FormFailure(valid, err.value)));
      }

      var answer := walletPoolSvc.GetAccountAddress(vf.walletUUIDRaw, vf.accountParameters.value);
      if answer.NilDeref? {
        return NilDeref;
      }
      var status := AddressStatus(answer.value);
      if status.Err? {
        return Returned(Fail(status.error));
      }

      req.accountIdentifier.address := status.value;
      return Returned(Respond(AccountResponse(req.walletIdentifier, req.accountIdentifier)));
    }
  }

  /** `signDataHandler`. */
  class SignDataHandler {
    const walletPoolSvc: Pool

    constructor (pool: Pool)
      ensures walletPoolSvc == pool
    {
      walletPoolSvc := pool;
    }

    /**
     * `Handle`: unlike the address handler, a wallet the pool does not hold
     * reaches the client as the generic internal error, never as
     * ResourceExhausted. An accepted form is one whose request carries an
     * account identity.
     */
    method Handle(req: SignDataRequest, form: SignDataFormOutcome) returns (r: Outcome<Reply<SignDataResponse>>)
      requires form.outcome.err.None? ==> req.accountIdentifier != null
      modifies req.accountIdentifier
      ensures form.outcome.err.Some? ==> r == Returned(Fail(FormFailure(form.outcome.valid, form.outcome.err.value)))
      ensures form.outcome.err.None? && form.walletUUIDRaw !in walletPoolSvc.walletUnits ==> r == Returned(Fail(GenericInternal))
      ensures (form.outcome.err.None? && form.walletUUIDRaw in walletPoolSvc.walletUnits
               && walletPoolSvc.walletUnits[form.walletUUIDRaw].unit.None?) ==> r == NilDeref
      ensures (form.outcome.err.None? && form.walletUUIDRaw in walletPoolSvc.walletUnits
               && walletPoolSvc.walletUnits[form.walletUUIDRaw].unit.Some?) ==>
        var status := SignStatus(walletPoolSvc.walletUnits[form.walletUUIDRaw].unit.value.signData(form.accountParameters, form.dataForSign));
        && (status.Err? ==> r == Returned(Fail(status.error)))
        && (status.Ok? ==>
              && r == Returned(Respond(SignDataResponse(req.walletIdentifier, req.accountIdentifier, status.value.1)))
              && req.accountIdentifier.address == status.value.0)
      ensures req.accountIdentifier != null && !(r.Returned? && r.value.Respond?) ==>
        req.accountIdentifier.address == old(req.accountIdentifier.address)
      ensures req.accountIdentifier != null ==> req.accountIdentifier.parameters == old(req.accountIdentifier.parameters)
    {
      if form.outcome.err.Some? {
        return Returned(Fail(FormFailure(form.outcome.valid, form.outcome.err.value)));
      }

      var answer := walletPoolSvc.SignData(form.walletUUIDRaw, form.accountParameters, form.dataForSign);
      if answer.NilDeref? {
        return NilDeref;
      }
      var status := SignStatus(answer.value);
      if status.Err? {
        return Returned(Fail(status.error));
      }

      req.accountIdentifier.address := status.value.0;
      return Returned(Respond(SignDataResponse(req.walletIdentifier, req.accountIdentifier, status.value.1)));
    }
  }

  /** `getDerivationsAddressesHandler`. */
  class GetDerivationsAddressesHandler {
    const walletPoolSvc: Pool

    constructor (pool: Pool)
      ensures walletPoolSvc == pool
    {
      walletPoolSvc := pool;
    }

    /**
     * `Handle`: a wallet the pool does not hold answers a zero count, which
     * reaches the client as ResourceExhausted "wallet not loaded or session
     * already expired".
     */
    method Handle(req: GetMultipleAccountRequest, form: RangeFormOutcome) returns (r: Outcome<Reply<GetMultipleAccountResponse>>)
      ensures form.outcome.err.Some? ==> r == Returned(Fail(FormFailure(form.outcome.valid, form.outcome.err.value)))
      ensures form.outcome.err.None? && form.mnemonicWalletUUIDRaw !in walletPoolSvc.walletUnits ==>
        r == Returned(Fail(Status(ResourceExhausted, WalletNotLoadedOrExpired)))
      ensures (form.outcome.err.None? && form.mnemonicWalletUUIDRaw in walletPoolSvc.walletUnits
               && walletPoolSvc.walletUnits[form.mnemonicWalletUUIDRaw].unit.None?) ==> r == NilDeref
      ensures (form.outcome.err.None? && form.mnemonicWalletUUIDRaw in walletPoolSvc.walletUnits
               && walletPoolSvc.walletUnits[form.mnemonicWalletUUIDRaw].unit.Some?) ==>
        r == Returned(MultipleAccountsReply(form.outcome, req.walletIdentifier,
          walletPoolSvc.walletUnits[form.mnemonicWalletUUIDRaw].unit.value.getMultipleAccounts(form.accountsParameters)))
    {
      if form.outcome.err.Some? {
        return Returned(MultipleAccountsReply(form.outcome, req.walletIdentifier, AccountsAnswer(0, None, None)));
      }
      var answer := walletPoolSvc.GetMultipleAccounts(form.mnemonicWalletUUIDRaw, form.accountsParameters);
      if answer.NilDeref? {
        return NilDeref;
      }
      return Returned(MultipleAccountsReply(form.outcome, req.walletIdentifier, answer.value));
    }
  }

  /** `unLoadMultipleMnemonicsHandler`. */
  class UnLoadMultipleMnemonicsHandler {
    const walletPoolSvc: Pool

    constructor (pool: Pool)
      ensures walletPoolSvc == pool
    {
      walletPoolSvc := pool;
    }

    /**
     * `Handle`: the pool's `UnloadMultipleWalletUnit` never fails, so once
     * the form is accepted the answer is always the empty success and the
     * generic internal branch is never taken; each listed wallet the pool
     * holds is cancelled and none is removed.
     */
    method Handle(form: UnloadMultipleFormOutcome) returns (r: Reply<()>)
      requires walletPoolSvc.Valid()
      modifies walletPoolSvc.walletUnits.Values
      ensures walletPoolSvc.Valid()
      ensures form.outcome.err.Some? ==> r == Fail(FormFailure(form.outcome.valid, form.outcome.err.value))
      ensures form.outcome.err.None? ==> r == Respond(())
      ensures r.Fail? ==> r.err != GenericInternal || form.outcome.valid
      ensures forall k :: k in walletPoolSvc.walletUnits ==>
        walletPoolSvc.walletUnits[k].cancelled ==
          (old(walletPoolSvc.walletUnits[k].cancelled) || (form.outcome.err.None? && k in form.mnemonicWalletsUUIDs))
      ensures forall k :: k in walletPoolSvc.walletUnits ==> OnlyCancelChanged(walletPoolSvc.walletUnits[k])
    {
      if form.outcome.err.Some? {
        return UnloadMultipleReply(form.outcome, None);
      }
      var err := walletPoolSvc.UnloadMultipleWalletUnit(form.mnemonicWalletsUUIDs);
      return UnloadMultipleReply(form.outcome, err);
    }
  }
}
