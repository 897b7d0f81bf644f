# HD-wallet API: wallet pool, mnemonic handlers and request mapping

This project models the core of the HD-wallet API service
(`bc-wallet-common-hdwallet-api`) in Dafny and proves properties of the model.
The service keeps decrypted mnemonic wallets in memory for a limited time and
answers gRPC requests against them.

The model covers five parts:

- **The wallet pool** (`wallet_pool.dfy`, module `WalletPool`).
  - The pool is a map from wallet UUID to a unit handle (`unitWrapper`).
  - Each handle has an unload deadline, a timer and a cancellable context.
  - A one-shot watcher waits for the timer or for cancellation. It then unloads the unit and notifies a reaper, which deletes the entry.
  - The goroutines become explicit steps with the time passed in as `now`:
    - `Pool.WatcherStep` is one run of a handle's select;
    - `Pool.ReapNext` is one receive of the reaper loop.
  - The unbuffered notification channel is the queue of watchers blocked on their send.
  - The window between a successful unload and the reaper's delete is kept visible. In it, the handle is still in the map with a nil unit and a nil timer. The operations that dereference them return `NilDeref`.
- **The mnemonic configuration** (`config.dfy`, module `Config`).
  - `Prepare` is the word-count rule, which depends on whether this is a production run.
  - `PrepareWith` picks up the base application config.
- **The request forms** (`forms.dfy`, module `Forms`).
  - Each form copies a request into its own fields step by step.
  - The protobuf messages are in `messages.dfy` (module `Messages`).
- **The two handlers that see a plain-text mnemonic** (`mnemonic_handlers.dfy`, module `MnemonicHandlers`).
  - The byte buffer holding the phrase is an `array` that the handler returns, so its final contents can be stated.
  - A ghost trace records which outside functions were called.
- **The handlers that serve a loaded wallet** (`account_handlers.dfy`, module `AccountHandlers`).
  - Each maps the form's answer and then the pool's answer to a gRPC status. The mapping is a pure function.
  - `Handle` composes that function with the pool.

Code outside the core is represented by function values: wallet units, the maker function, Vault encrypt/decrypt, SHA-256, `uuid.Parse`, the phrase validator and the generator. Shared types are in `types.dfy` (module `Types`):
- bytes and UUIDs;
- the errors and status codes;
- the lower-case hex rendering of a digest.

## Model

| member | source | states |
|---|---|---|
| WalletPool.NextUnloadAt | internal/wallet_manager/wallet_pool.go:112-121 | The new deadline is at least the old one and at least `now + ttl`, and equals one of them. It differs from the old deadline exactly when `now + ttl` is strictly later. |
| WalletPool.LeaseIsLatestRequest | internal/wallet_manager/wallet_pool.go:206-211 | After any run of re-admissions of a loaded wallet, the deadline is the latest of the starting deadline and every requested `now + ttl`. A lease never shrinks. |
| WalletPool.UnitWrapper.constructor | internal/wallet_manager/wallet_pool.go:141-158 | A new handle holds its unit. It is not cancelled and has no timer yet. |
| WalletPool.UnitWrapper.Run | internal/wallet_manager/wallet_pool.go:59-110 | Before `Run` returns: the watcher has parsed the unit's UUID, set the deadline to `now + ttl`, armed the timer, and is waiting in its select. |
| WalletPool.UnitWrapper.ResetTimer | internal/wallet_manager/wallet_pool.go:112-121 | The deadline becomes `NextUnloadAt(old, now, ttl)`. It panics on a nil timer exactly when the deadline is extended on a handle whose unload already succeeded. Nothing else changes. |
| WalletPool.UnitWrapper.Shutdown | internal/wallet_manager/wallet_pool.go:123-125 | Only the cancellation flag is set. |
| WalletPool.UnitWrapper.ShutdownUnit | internal/wallet_manager/wallet_pool.go:127-139 | `UnloadWallet` is called once and its error is returned. The unit, the timer and the context are cleared on success only. |
| WalletPool.UnitWrapper.Watch | internal/wallet_manager/wallet_pool.go:76-97 | The select fires exactly when the handle is armed and its timer is due or it is cancelled. It takes one branch: the ready one, or `pick` when both are ready. It calls `UnloadWallet` for the first and only time. The timer branch also cancels. The handle ends past shutdown, whether or not the unload succeeded. |
| WalletPool.Pool.constructor | internal/wallet_manager/wallet_pool.go:346-361 | A new pool has an empty map and no pending notifications. |
| WalletPool.Pool.AddAndStartWalletUnit | internal/wallet_manager/wallet_pool.go:198-238 | For a loaded UUID: decrypt and maker are not called, the map is unchanged, and only that handle's deadline moves, to `NextUnloadAt`. For a new UUID: decrypt is called once, and the maker is called once only if decryption succeeded. A decrypt error, a maker error or a failed cast is returned and leaves the map exactly as before. On success exactly that key is added with a fresh armed handle whose deadline is `now + ttl`. Other entries are untouched. |
| WalletPool.Pool.StartUnit | internal/wallet_manager/wallet_pool.go:228-232 | The new handle is stored under the UUID and started. The key set grows by exactly that key. |
| WalletPool.Pool.UnloadWalletUnit | internal/wallet_manager/wallet_pool.go:240-260 | A missing UUID gives `(nil, nil)` and nothing changes. A present one is cancelled and not removed, and the parsed UUID of its unit (or the parse error) is returned. A handle whose unload already succeeded panics before anything is cancelled. |
| WalletPool.Pool.UnloadMultipleWalletUnit | internal/wallet_manager/wallet_pool.go:262-278 | Always returns nil. Every listed UUID present in the map is cancelled and missing ones are skipped. No entry is removed, and nothing but the cancellation flags changes. |
| WalletPool.Pool.GetAccountAddress | internal/wallet_manager/wallet_pool.go:280-293 | A missing UUID gives a nil address and a nil error. A held wallet gives its unit's answer. The unload window gives `NilDeref`. |
| WalletPool.Pool.GetMultipleAccounts | internal/wallet_manager/wallet_pool.go:295-310 | A missing UUID gives `(0, nil, nil)`. Otherwise it behaves as `GetAccountAddress`. |
| WalletPool.Pool.LoadAccount | internal/wallet_manager/wallet_pool.go:312-325 | A missing UUID gives a nil address and a nil error. Otherwise it behaves as `GetAccountAddress`. |
| WalletPool.Pool.SignData | internal/wallet_manager/wallet_pool.go:327-344 | Unlike the read accessors, a missing UUID is the error `ErrPassedWalletNotFound`. Otherwise it gives the unit's answer, or `NilDeref` in the unload window. |
| WalletPool.Pool.WatcherStep | internal/wallet_manager/wallet_pool.go:76-97 | The select of the handle under the UUID fires exactly when that handle is in the map, armed, and its timer is due or it is cancelled; a missing UUID or a handle not ready changes nothing. It takes the ready branch, or `pick` when both are ready. When it fires, the handle ends cancelled with its deadline kept, this is its only unload, and its own UUID is appended to the channel even if the unload failed. The entry stays in the map. Other handles are unchanged. |
| WalletPool.Pool.ReapNext | internal/wallet_manager/wallet_pool.go:184-193 | The reaper deletes exactly the oldest notified key and consumes that notification. With no notification it changes nothing. |
| WalletPool.UnitNilOnlyAfterSuccessfulUnload | internal/wallet_manager/wallet_pool.go:133-136 | In a consistent pool, an entry has a nil unit exactly when its unload succeeded and the reaper has not yet deleted it. Its timer is then nil too, and its UUID is waiting on the channel. This is the window in which the accessors, `ResetTimer` and `UnloadWalletUnit` dereference nil. |
| Config.MnemonicConfig.constructor | internal/config/hdwallet.go:43-49 | The struct as the environment loader leaves it: the three settings as given and no base config until `PrepareWith`. No Go function corresponds to it. |
| Config.MnemonicConfig.GetDefaultMnemonicWordsCount | internal/config/hdwallet.go:51-53 | Returns the stored word count. |
| Config.MnemonicConfig.GetHdWalletChainID | internal/config/hdwallet.go:54-56 | Returns the stored chain id. |
| Config.MnemonicConfig.GetHdWalletPluginPath | internal/config/hdwallet.go:57-59 | Returns the stored plugin path. |
| Config.MnemonicConfig.Prepare | internal/config/hdwallet.go:62-77 | A missing base config is reported before any other check. In production, a count of 18 or less is `ErrMinWordsCount`. The config is accepted exactly when the count is 21 or 24 in production, or one of 15, 18, 21, 24 otherwise. Any other count is `ErrWrongMnemonicWordsCount`. |
| Config.LastBaseConfig | internal/config/hdwallet.go:81-88 | The result is the last base config in the argument list, however many other values follow it. If the list has none, the held config is kept. |
| Config.MnemonicConfig.PrepareWith | internal/config/hdwallet.go:80-91 | Always returns nil. The stored base config becomes `LastBaseConfig` of the arguments, and other argument types are ignored. |
| Forms.AccountForm.constructor | internal/grpc/handler_account_get_one.go:35 | A new form has every field at its zero value and no parameters. |
| Forms.AccountForm.Validate | internal/grpc/form_address_get.go:87-100 | The UUID text is copied before parsing. The parsed value is stored even on failure, and the parse error is the result. The parameters are copied only when parsing succeeds. `valid` is true exactly when there is no error. |
| Forms.AccountForm.LoadAndValidateLoadAddrReq | internal/grpc/form_address_get.go:53-68 | Checks run in order: wallet identity, account identity, parameters. The first one missing is reported as `ErrMissedRequiredData` with that part's name, and the form is untouched. Otherwise it behaves as `Validate`. `valid` is true exactly when there is no error. |
| Forms.AccountForm.LoadAndValidateGetAddrReq | internal/grpc/form_address_get.go:70-85 | The same checks and results as `LoadAndValidateLoadAddrReq`, on a GetAccount request. |
| Forms.LoadMnemonicForm.constructor | internal/grpc/form_mnemonic_load.go:12-18 | `&LoadMnemonicForm{}`: every field at its zero value, with a zero lifetime and no ciphertext. |
| Forms.LoadMnemonicForm.LoadAndValidate | internal/grpc/form_mnemonic_load.go:20-36 | A nil identity is `ErrMissedRequiredData`. The UUID text is kept and the parse error is returned. On success the lifetime and the ciphertext are copied unchanged, zero and empty included. `valid` is true exactly when there is no error. |
| Forms.EncryptMnemonicForm.constructor | internal/grpc/handler_mnemonic_encrypt.go:70 | `&EncryptMnemonicForm{}`: every field at its zero value, with no transit ciphertext. |
| Forms.EncryptMnemonicForm.LoadAndValidate | internal/grpc/form_memonic_encrypt.go:19-34 | A nil identity is `ErrMissedRequiredData`. The parse error is returned. On success the transit ciphertext is the request's data, empty included. `valid` is true exactly when there is no error. |
| Forms.UnLoadMnemonicForm.constructor | internal/grpc/form_mnemonic_unload.go:12-15 | `&UnLoadMnemonicForm{}`: an empty UUID text and the zero UUID. |
| Forms.UnLoadMnemonicForm.LoadAndValidate | internal/grpc/form_mnemonic_unload.go:17-30 | A nil identity is `ErrMissedRequiredData`. The UUID text is copied even when parsing fails, and the parsed value is stored. `valid` is true exactly when there is no error. |
| Types.FormFailure | internal/grpc/handler_mnemonic_encrypt.go:71-80 | A failed form with `valid` false is InvalidArgument carrying the form's error. Otherwise it is Internal "something went wrong", which carries no detail. |
| Types.Hex | internal/grpc/handler_mnemonic_encrypt.go:102 | Renders two lower-case hex digits per byte, so a 32-byte digest gives 64 characters. |
| Types.HexInjective | internal/grpc/handler_mnemonic_encrypt.go:102 | Two byte strings with the same rendering are equal, so the wallet hash determines the digest. |
| Types.HexPairNamesByte | internal/grpc/handler_mnemonic_encrypt.go:102 | Reading back the two digits at position `2k` gives byte `k`, high nibble first. |
| MnemonicHandlers.NewBuffer | internal/grpc/handler_mnemonic_generate.go:58 | `[]byte(seedPhrase)`, and the decrypter's output slice at handler_mnemonic_encrypt.go:82: a fresh buffer holding exactly the given bytes, shared with nothing else. |
| MnemonicHandlers.Wipe | internal/grpc/handler_mnemonic_encrypt.go:86-90 | Every byte of the buffer is zero afterwards. |
| MnemonicHandlers.EncryptMnemonicHandler.constructor | internal/grpc/handler_mnemonic_encrypt.go:111-121 | Stores the transit and application encrypt services, and the validator. |
| MnemonicHandlers.EncryptMnemonicHandler.Handle | internal/grpc/handler_mnemonic_encrypt.go:62-109 | A failed form is InvalidArgument with the form error, and nothing is called. A transit decrypt error is returned unwrapped, with no further call. Once decryption succeeds, the plain-text buffer is zero on every return, including the nil-validator panic. An invalid phrase is InvalidArgument "mnemonic phrase is not valid", and the app encrypt is not called. An app encrypt error is returned unwrapped. On success: the request's wallet hash is `Hex(sha256(plain))` (64 characters), and the response carries the app ciphertext and the request's own identity object. The hash is written on success only, and the UUID text is never changed. |
| MnemonicHandlers.GenerateMnemonicHandler.constructor | internal/grpc/handler_mnemonic_generate.go:83-93 | Stores the generator and the application encrypt service. |
| MnemonicHandlers.GenerateMnemonicHandler.Handle | internal/grpc/handler_mnemonic_generate.go:30-81 | A failed form maps as in `FormFailure`. A generator error is Internal "something went wrong", and encrypt is not called. An encrypt error is returned unwrapped, and the phrase is left in its buffer. On success: the wallet hash is `Hex(sha256(phrase))`, the response carries the ciphertext and the request's identity, and the buffer is zeroed. |
| AccountHandlers.AddressStatus | internal/grpc/handler_account_get_one.go:47-60 | Any pool error becomes Internal "something went wrong". A nil address is ResourceExhausted "wallet not loaded". Success happens exactly when there is no error and there is an address, and then the address is the pool's. It is never InvalidArgument. |
| AccountHandlers.SignStatus | internal/grpc/handler_sign.go:79-93 | Any pool error, `ErrPassedWalletNotFound` included, becomes Internal "something went wrong". A nil address or nil signature is ResourceExhausted "wallet not loaded". Success happens exactly when both are present and there is no error, and then both are the pool's. |
| AccountHandlers.MultipleAccountsReply | internal/grpc/handler_accounts_get_multiple.go:66-93 | Failures are reported in order: form failure, then pool error (Internal), then zero count (ResourceExhausted "wallet not loaded or session already expired", whatever the list). A response exists exactly otherwise. It carries the pool's count and list unchanged and the request's identity. |
| AccountHandlers.UnloadMultipleReply | internal/grpc/handler_multiple_mnemonics_unload.go:66-84 | A form failure is mapped as in `FormFailure`, then a pool error is Internal. Success, a nil response with a nil error, happens exactly when neither occurred. |
| AccountHandlers.GetDerivationAddressHandler.constructor | internal/grpc/handler_account_get_one.go:68-76 | `MakeGetDerivationAddressHandler` stores the pool it is given. |
| AccountHandlers.GetDerivationAddressHandler.Handle | internal/grpc/handler_account_get_one.go:27-66 | Each missing part of the request is InvalidArgument naming it, and a parse error is InvalidArgument with that error. Composed with the pool, a wallet the pool does not hold is ResourceExhausted "wallet not loaded", and the unload window panics. On success the request's own account identity gets the unit's address and is echoed with the wallet identity. Otherwise the address is unchanged. |
| AccountHandlers.SignDataHandler.constructor | internal/grpc/handler_sign.go:102-110 | `MakeSignDataHandler` stores the pool it is given. |
| AccountHandlers.SignDataHandler.Handle | internal/grpc/handler_sign.go:59-100 | Composed with the pool, signing with a wallet the pool does not hold is Internal "something went wrong", never ResourceExhausted. On success the request's account identity gets the signing address, and the response carries the signature. Otherwise the address is unchanged. |
| AccountHandlers.GetDerivationsAddressesHandler.constructor | internal/grpc/handler_accounts_get_multiple.go:96-104 | `MakeGetDerivationsAddressesHandler` stores the pool it is given. |
| AccountHandlers.GetDerivationsAddressesHandler.Handle | internal/grpc/handler_accounts_get_multiple.go:57-94 | Composed with the pool, a wallet the pool does not hold is ResourceExhausted "wallet not loaded or session already expired". A held wallet's answer is mapped by `MultipleAccountsReply`. The unload window panics. |
| AccountHandlers.UnLoadMultipleMnemonicsHandler.constructor | internal/grpc/handler_multiple_mnemonics_unload.go:87-95 | `MakeUnLoadMultipleMnemonicsHandler` stores the pool it is given. |
| AccountHandlers.UnLoadMultipleMnemonicsHandler.Handle | internal/grpc/handler_multiple_mnemonics_unload.go:57-85 | Composed with the pool, whose `UnloadMultipleWalletUnit` never fails, an accepted form always gives the empty success, so the Internal branch at lines 78-82 is never taken. The listed wallets the pool holds are cancelled, and none is removed. |

## Left out

- Concurrency is replaced by explicit sequential steps with integer time. This covers goroutines, the pool mutex, the `sync.WaitGroup`, the unbuffered channel and `time.Timer`. Interleavings of a watcher with pool operations are not modelled, except the unload window, which is.
- The reaper's handling of runtime-context cancellation (wallet_pool.go:178-183) is left out. It spins while the map is non-empty, which is a liveness matter. Cancelling the runtime context, which also cancels every handle's context, is not modelled.
- `runtime.GC()`, zap logging and the opentracing calls are left out. They have no effect on results.
- `WalletPool.UnitWrapper.Run` requires the unit's UUID to parse. In the source a parse failure returns before `Done` (wallet_pool.go:64-69), and `Run` then blocks for ever while holding the pool mutex. That deadlock is not modelled.
- `WalletPool.Pool.AddAndStartWalletUnit` requires `UnitReportsId`: the unit the maker builds reports a UUID that parses back to the admitted key. The source never checks this. Without it, the watcher would notify a different key.
- The timer is taken to fire at the handle's current deadline after `Timer.Reset`. A value left in the timer channel by an earlier expiry is not modelled.
- `Run` always returns nil, so the error branch at wallet_pool.go:232-235 cannot be taken and has no counterpart.
- Vault encryption and decryption, SHA-256, `uuid.Parse`, `uuid.UUID.String`, the phrase validator, the phrase generator, the plugin maker and wallet units are function values. No round trip `decrypt(encrypt(x)) == x` is stated, because nothing in the core establishes one.
- A wallet unit's `UnloadWallet` has one fixed outcome per unit. It is called at most once per handle, so nothing is lost.
- Strings passed to the maker and the validator (`string(decryptedData)`) are given as their bytes. The generator's phrase is given as the bytes of its text.
- Go strings are immutable copies that are never zeroed: the validator's argument (handler_mnemonic_encrypt.go:92) and the generator's `seedPhrase` (handler_mnemonic_generate.go:50, 74, where `seedPhrase = ""` frees nothing) keep the plain text in memory. The wipe properties of both handlers cover the byte buffer only, not these copies.
- `Config.MnemonicConfig.constructor` stands for the environment loader filling the struct's tagged fields (hdwallet.go:43-49). Defaults and parsing of the environment are not part of this model.
- The pool never zeroes the decrypted mnemonic it passes to the maker, and no wipe property is stated for it.
- `MnemonicHandlers.GenerateMnemonicHandler.Handle` zeroes the phrase buffer only on success. The wipe is registered after the encrypt step (handler_mnemonic_generate.go:60-75), and the model follows the code. In the re-encrypt handler, the wipe covers every return after decryption.
- `MnemonicHandlers.EncryptMnemonicHandler.constructor` takes the validator as an argument. `MakeEncryptMnemonicHandler` never sets it, and the model gives a nil validator as `None`, which panics. The handler is also unreachable through the service's method dispatch, which answers `EncryptMnemonic` as unimplemented. Dispatch (internal/grpc/handlers.go) is not part of this model.
- `GenerateMnemonicForm`, `SignDataForm`, `derivationAddressByRangeForm` and `UnLoadMultipleMnemonicForm` are not part of this model. The handlers that use them take the form's answer as an argument.
- `MnemonicHandlers.GenerateMnemonicHandler.Handle` and `AccountHandlers.SignDataHandler.Handle` require an accepted request to carry the nested message they write to.
- Plugin loading, process wiring, the Unix-socket gRPC server, the configuration plumbing files and the log-tag constants are not part of this model.
- `Config.MnemonicConfig.PrepareWith` takes its arguments as a list that tells base configs apart from other values. The Go type switch over `interface{}` is not modelled.
