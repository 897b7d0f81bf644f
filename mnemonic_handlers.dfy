/**
 * The two handlers that see a mnemonic in plain text: re-encryption of a
 * transit-encrypted phrase under the application key, and generation of a
 * fresh phrase. Both hash the phrase (lower-case hex of its SHA-256 digest,
 * FIPS 180-4 section 6.2) into the request's wallet identity, and both zero
 * the byte buffer holding the phrase on some of their exit paths. The
 * buffer is returned so that its final contents can be stated; SHA-256, the
 * encrypt services, the phrase validator and the generator are function
 * values.
 */
module MnemonicHandlers {
  import opened Types
  import opened Messages
  import opened Forms

  /** The calls a handler makes to code outside this model, in order. */
  datatype Call = TransitDecrypt | ValidateMnemonic | AppEncrypt | Generate | Hash

  /** Every byte of the buffer is zero. */
  predicate Wiped(buf: array<byte>)
    reads buf
  {
    forall i :: 0 <= i < buf.Length ==> buf[i] == 0
  }

  /** A fresh buffer holding a copy of `data` (`[]byte(...)` or the decrypter's output slice). */
  method NewBuffer(data: Bytes) returns (buf: array<byte>)
    ensures fresh(buf) && buf[..] == data
  {
    buf := new byte[|data|](i requires 0 <= i < |data| => data[i]);
  }

  /** The deferred loop `for i := range b { b[i] = 0 }`. */
  method Wipe(buf: array<byte>)
    modifies buf
    ensures Wiped(buf)
  {
    for i := 0 to buf.Length
      invariant forall j :: 0 <= j < i ==> buf[j] == 0
    {
      buf[i] := 0;
    }
  }

  /** `encryptMnemonicHandler`. */
  class EncryptMnemonicHandler {
    const transitEncryptorSvc: EncryptService
    const appEncryptorSvc: EncryptService
    /** `mnemonicValidatorFunc`; None is a nil function, which panics when called. */
    const mnemonicValidatorFunc: Option<Bytes -> bool>

    /** `MakeEncryptMnemonicHandler` with the validator the caller supplies (that function itself leaves it nil). */
    constructor (transit: EncryptService, app: EncryptService, validator: Option<Bytes -> bool>)
      ensures transitEncryptorSvc == transit && appEncryptorSvc == app && mnemonicValidatorFunc == validator
    {
      transitEncryptorSvc := transit;
      appEncryptorSvc := app;
      mnemonicValidatorFunc := validator;
    }

    /**
     * `Handle`: validate the form, decrypt with the transit key, check the
     * phrase, encrypt it with the application key and hash it into the
     * request's wallet identity. Once decryption has produced the plain
     * text, its buffer is zero on every way out, the nil-validator panic
     * included. Decrypt and encrypt failures are handed back unwrapped.
     */
    method Handle(req: EncryptMnemonicRequest, parse: string -> ParseOutcome, sha256: Bytes -> Digest)
      returns (r: Outcome<Reply<MnemonicResponse>>, decryptedData: array?<byte>, ghost calls: seq<Call>)
      modifies req.walletIdentifier
      ensures req.walletIdentifier != null ==> req.walletIdentifier.walletUUID == old(req.walletIdentifier.walletUUID)
      // the form
      ensures req.walletIdentifier == null ==>
        r == Returned(Fail(Status(InvalidArgument, ErrorText(WalletIdentityMissing)))) && decryptedData == null && calls == []
      ensures req.walletIdentifier != null && parse(req.walletIdentifier.walletUUID).err.Some? ==>
        && r == Returned(Fail(Status(InvalidArgument, ErrorText(parse(req.walletIdentifier.walletUUID).err.value))))
        && decryptedData == null && calls == []
      ensures (r.Returned? && r.value.Fail? && r.value.err.Status? && r.value.err.code == InvalidArgument
               && r.value.err.msg != MnemonicNotValid) ==> calls == []
      // transit decryption
      ensures req.walletIdentifier != null && parse(req.walletIdentifier.walletUUID).err.None? ==>
        && |calls| > 0 && calls[0] == TransitDecrypt
        && var plain := transitEncryptorSvc.decrypt(req.mnemonicData);
           && (plain.Err? ==> r == Returned(Fail(Raw(plain.error))) && decryptedData == null && calls == [TransitDecrypt])
           && (plain.Ok? ==> decryptedData != null && fresh(decryptedData) && decryptedData.Length == |plain.value| && Wiped(decryptedData))
      // the phrase check and the re-encryption
      ensures decryptedData != null && mnemonicValidatorFunc.None? ==> r == NilDeref && calls == [TransitDecrypt]
      ensures decryptedData != null && mnemonicValidatorFunc.Some? ==>
        var plain := transitEncryptorSvc.decrypt(req.mnemonicData).value;
        var isValid := mnemonicValidatorFunc.value(plain);
        var enc := appEncryptorSvc.encrypt(plain);
        && (!isValid ==> r == Returned(Fail(Status(InvalidArgument, MnemonicNotValid))) && calls == [TransitDecrypt, ValidateMnemonic])
        && (isValid && enc.Err? ==> r == Returned(Fail(Raw(enc.error))) && calls == [TransitDecrypt, ValidateMnemonic, AppEncrypt])
        && (isValid && enc.Ok? ==>
              && r == Returned(Respond(MnemonicResponse(req.walletIdentifier, enc.value)))
              && req.walletIdentifier.walletHash == Hex(sha256(plain))
              && calls == [TransitDecrypt, ValidateMnemonic, AppEncrypt, Hash])
      // the wallet hash is written on success only
      ensures req.walletIdentifier != null && !(r.Returned? && r.value.Respond?) ==>
        req.walletIdentifier.walletHash == old(req.walletIdentifier.walletHash)
      ensures r.Returned? && r.value.Respond? ==> |req.walletIdentifier.walletHash| == 64
    {
      calls := [];
      decryptedData := null;
      var vf := new EncryptMnemonicForm();
      var valid, err := vf.LoadAndValidate(req, parse);
      if err.Some? {
        return Returned(Fail(FormFailure(valid, err.value))), decryptedData, calls;
      }

      calls := calls + [TransitDecrypt];
      var decrypted := transitEncryptorSvc.decrypt(vf.transitEncryptedMnemonicData);
      if decrypted.Err? {
        return Returned(Fail(Raw(decrypted.error))), decryptedData, calls;
      }
      var buf := NewBuffer(decrypted.value);
      decryptedData := buf;

      if mnemonicValidatorFunc.None? {
        Wipe(buf);
        return NilDeref, decryptedData, calls;
      }
      calls := calls + [ValidateMnemonic];
      var isValidMnemoPhrase := mnemonicValidatorFunc.value(buf[..]);
      if !isValidMnemoPhrase {
        Wipe(buf);
        return Returned(Fail(Status(InvalidArgument, MnemonicNotValid))), decryptedData, calls;
      }

      calls := calls + [AppEncrypt];
      var encryptedMnemonicData := appEncryptorSvc.encrypt(buf[..]);
      if encryptedMnemonicData.Err? {
        Wipe(buf);
        return Returned(Fail(Raw(encryptedMnemonicData.error))), decryptedData, calls;
      }

      calls := calls + [Hash];
      var mnemonicHash := Hex(sha256(buf[..]));
      req.walletIdentifier.walletHash := mnemonicHash;

      r := Returned(Respond(MnemonicResponse(req.walletIdentifier, encryptedMnemonicData.value)));
      Wipe(buf);
    }
  }

  /** `generateMnemonicHandler`. */
  class GenerateMnemonicHandler {
    /** `generatorFunc`; the phrase is given as the bytes of its text. */
    const generatorFunc: () -> Result<Bytes, Error>
    const appEncryptorSvc: EncryptService

    /** `MakeGenerateMnemonicHandler`. */
    constructor (mnemoGenFunc: () -> Result<Bytes, Error>, app: EncryptService)
      ensures generatorFunc == mnemoGenFunc && appEncryptorSvc == app
    {
      generatorFunc := mnemoGenFunc;
      appEncryptorSvc := app;
    }

    /**
     * `Handle`: generate a phrase, encrypt it with the application key and
     * hash it into the request's wallet identity. A generator failure is
     * the generic internal error; an encrypt failure is handed back
     * unwrapped and, because the wipe is only registered after it, leaves
     * the phrase in its buffer. A success zeroes the buffer.
     * `GenerateMnemonicForm` is not part of this model: its answer is `form`,
     * and an accepted request is one that carries a wallet identity.
     */
    method Handle(req: GenerateMnemonicRequest, form: FormOutcome, sha256: Bytes -> Digest)
      returns (r: Reply<MnemonicResponse>, seedPhraseRaw: array?<byte>, ghost calls: seq<Call>)
      requires form.err.None? ==> req.walletIdentifier != null
      modifies req.walletIdentifier
      ensures req.walletIdentifier != null ==> req.walletIdentifier.walletUUID == old(req.walletIdentifier.walletUUID)
      ensures form.err.Some? ==> r == Fail(FormFailure(form.valid, form.err.value)) && seedPhraseRaw == null && calls == []
      ensures form.err.None? && generatorFunc().Err? ==>
        r == Fail(GenericInternal) && seedPhraseRaw == null && calls == [Generate]
      ensures form.err.None? && generatorFunc().Ok? ==>
        var phrase := generatorFunc().value;
        var enc := appEncryptorSvc.encrypt(phrase);
        && seedPhraseRaw != null && fresh(seedPhraseRaw)
        && (enc.Err? ==> r == Fail(Raw(enc.error)) && seedPhraseRaw[..] == phrase && calls == [Generate, AppEncrypt])
        && (enc.Ok? ==>
              && r == Respond(MnemonicResponse(req.walletIdentifier, enc.value))
              && req.walletIdentifier.walletHash == Hex(sha256(phrase))
              && seedPhraseRaw.Length == |phrase| && Wiped(seedPhraseRaw)
              && calls == [Generate, AppEncrypt, Hash])
      ensures req.walletIdentifier != null && r.Fail? ==> req.walletIdentifier.walletHash == old(req.walletIdentifier.walletHash)
    {
      calls := [];
      seedPhraseRaw := null;
      if form.err.Some? {
        return Fail(FormFailure(form.valid, form.err.value)), seedPhraseRaw, calls;
      }

      calls := calls + [Generate];
      var seedPhrase := generatorFunc();
      if seedPhrase.Err? {
        return Fail(GenericInternal), seedPhraseRaw, calls;
      }

      var buf := NewBuffer(seedPhrase.value);
      seedPhraseRaw := buf;

      calls := calls + [AppEncrypt];
      var encryptedMnemonicData := appEncryptorSvc.encrypt(buf[..]);
      if encryptedMnemonicData.Err? {
        return Fail(Raw(encryptedMnemonicData.error)), seedPhraseRaw, calls;
      }

      calls := calls + [Hash];
      var mnemonicHash := Hex(sha256(buf[..]));
      req.walletIdentifier.walletHash := mnemonicHash;

      r := Respond(MnemonicResponse(req.walletIdentifier, encryptedMnemonicData.value));
      Wipe(buf);
    }
  }
}
