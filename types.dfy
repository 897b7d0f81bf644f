/**
 * Value types shared by the wallet pool, the request forms and the RPC
 * handlers: bytes, wallet UUIDs, the errors the service names, gRPC status
 * codes, and the lower-case hexadecimal rendering that `fmt.Sprintf("%x", …)`
 * gives a SHA-256 digest.
 */
module Types {

  newtype byte = x: int | 0 <= x < 256

  type Bytes = seq<byte>

  /** A SHA-256 digest (FIPS 180-4, section 6.2): always 32 bytes. */
  type Digest = s: Bytes | |s| == 32 witness seq(32, _ => 0)

  /** A 128-bit wallet UUID (`uuid.UUID`), as a number. */
  newtype UUID = x: int | 0 <= x < 0x1_0000_0000_0000_0000_0000_0000_0000_0000

  /** The opaque, serialised account parameters (`*anypb.Any`). */
  type Params = seq<byte>

  datatype Option<+T> = None | Some(value: T)

  datatype Result<+T, +E> = Ok(value: T) | Err(error: E)

  /**
   * A Go call either returns, or dereferences nil and panics.
   * The panic is kept visible rather than excluded by a precondition.
   */
  datatype Outcome<+T> = Returned(value: T) | NilDeref

  /** The errors the service names, and errors coming from collaborators. */
  datatype Error =
    | PassedWalletNotFound                   // ErrPassedWalletNotFound
    | UnableCastPluginEntryToPoolUnitWorker  // ErrUnableCastPluginEntryToPoolUnitWorker
    | MissedRequiredData(what: string)       // ErrMissedRequiredData wrapped with the missing field's name
    | BaseAppConfigIsEmpty                   // ErrBaseAppConfigIsEmpty
    | MinWordsCount                          // ErrMinWordsCount
    | WrongMnemonicWordsCount                // ErrWrongMnemonicWordsCount
    | Foreign(text: string)                  // an error produced by code outside this model

  /** What `uuid.Parse` hands back: a value, and an error when the text is not a UUID. */
  datatype ParseOutcome = ParseOutcome(value: UUID, err: Option<Error>)

  /** The gRPC status codes the handlers use. */
  datatype Code = InvalidArgument | Internal | ResourceExhausted

  /** A status message: either a fixed text or the text of an error. */
  datatype Msg = Text(s: string) | ErrorText(e: Error)

  /** The error a handler returns: a gRPC status, or a collaborator's error passed through unwrapped. */
  datatype HandlerError = Status(code: Code, msg: Msg) | Raw(e: Error)

  /** What a handler returns: a response with a nil error, or a nil response with an error. */
  datatype Reply<+T> = Respond(resp: T) | Fail(err: HandlerError)

  /** An encrypt/decrypt capability (`encryptService`); the transit and the application key are two of them. */
  datatype EncryptService = EncryptService(encrypt: Bytes -> Result<Bytes, Error>, decrypt: Bytes -> Result<Bytes, Error>)

  const SomethingWentWrong: Msg := Text("something went wrong")
  const WalletNotLoaded: Msg := Text("wallet not loaded")
  const WalletNotLoadedOrExpired: Msg := Text("wallet not loaded or session already expired")
  const MnemonicNotValid: Msg := Text("mnemonic phrase is not valid")

  /** The generic internal failure, which carries no detail of the underlying error. */
  const GenericInternal: HandlerError := Status(Internal, SomethingWentWrong)

  /** The `(valid, err)` a request form answers; forms outside this model are given by it. */
  datatype FormOutcome = FormOutcome(valid: bool, err: Option<Error>)

  /**
   * How every handler reports a form that failed: an invalid request is the
   * client's fault and its error text is shown; any other failure is the
   * generic internal error, which shows nothing.
   */
  function FormFailure(valid: bool, err: Error): (e: HandlerError)
    ensures e.Status?
    ensures e.code == InvalidArgument <==> !valid
    ensures e.code == Internal <==> valid
    ensures e.msg.ErrorText? <==> !valid
    ensures e.msg.ErrorText? ==> e.msg.e == err
    ensures valid ==> e == GenericInternal
  {
    if !valid then Status(InvalidArgument, ErrorText(err)) else GenericInternal
  }

  // ---- lower-case hexadecimal, as the `%x` verb prints a byte array ----

  predicate IsLowerHex(c: char) {
    '0' <= c <= '9' || 'a' <= c <= 'f'
  }

  function HexDigit(n: int): (c: char)
    requires 0 <= n < 16
    ensures IsLowerHex(c)
    ensures HexValue(c) == n
  {
    if n < 10 then '0' + n as char else 'a' + (n - 10) as char
  }

  /** The value of one lower-case hexadecimal digit. */
  function HexValue(c: char): (n: int)
    requires IsLowerHex(c)
    ensures 0 <= n < 16
  {
    if c <= '9' then (c - '0') as int else (c - 'a') as int + 10
  }

  /** `fmt.Sprintf("%x", b)`: two lower-case digits per byte, high nibble first. */
  function Hex(b: Bytes): (s: string)
    ensures |s| == 2 * |b|
    ensures forall i :: 0 <= i < |s| ==> IsLowerHex(s[i])
  {
    if b == [] then ""
    else [HexDigit(b[0] as int / 16), HexDigit(b[0] as int % 16)] + Hex(b[1..])
  }

  /** Reading two digits back gives the byte: each pair of the rendering names its byte. */
  lemma {:induction false} HexPairNamesByte(b: Bytes, k: nat)
    requires k < |b|
    ensures HexValue(Hex(b)[2 * k]) * 16 + HexValue(Hex(b)[2 * k + 1]) == b[k] as int
  {
    if k > 0 {
      HexPairNamesByte(b[1..], k - 1);
      assert Hex(b)[2 * k] == Hex(b[1..])[2 * (k - 1)];
      assert Hex(b)[2 * k + 1] == Hex(b[1..])[2 * (k - 1) + 1];
    }
  }

  /** Different byte strings of the same length never render to the same text. */
  lemma HexInjective(a: Bytes, b: Bytes)
    requires Hex(a) == Hex(b)
    ensures a == b
  {
    assert |a| == |b|;
    forall k | 0 <= k < |a| ensures a[k] == b[k] {
      HexPairNamesByte(a, k);
      HexPairNamesByte(b, k);
    }
  }
}
