# Native-auth signer and contract transaction generator, in Dafny

This project models the two pieces of stateful logic in the repository's
HTTP and common packages, and proves properties about them.

- **`NativeAuthSigner`** (`packages/http/src/auth/native.auth.signer.ts`) caches a
  native-auth access token. It reuses the cached token while the token is still valid one
  minute from now. Otherwise it refreshes the token:
  1. Resolve the user signer, once per signer. An inline `privateKey` wins over
     `signerPrivateKeyPath`, and having neither is an error.
  2. Ask the native-auth client for a challenge.
  3. Sign the UTF-8 bytes of `address ++ challenge`.
  4. Trade the hex signature for a token.
  5. Cache `{token, expiryDate}`.
- **`ContractTransactionGenerator`**
  (`packages/common/src/sc.interactions/contract.transaction.generator.ts`) takes the
  transaction an interaction builds and stamps it with the signer account's on-chain nonce
  and the chain ID of the network configuration. It memoizes that configuration after the
  first successful fetch. A failed fetch becomes the error `Error when loading network
  config` and is not memoized. All failures are rethrown.

Files:

- `wrappers.dfy`: `Option`, `Result`, and the JavaScript `Error`.
- `encoding.dfy`: what Node's `Buffer` does at the two places the signer uses it.
  - `Buffer.from(s, 'utf8')` is UTF-8 (RFC 3629, section 3), with a strict decoder.
  - `toString('hex')` gives two lower-case digits per byte, with a decoder.
- `native_auth_signer.dfy`: module `NativeAuth`.
- `contract_transaction_generator.dfy`: module `ScInteractions`.

How each class is modelled:

- Each class is a Dafny `class` with the source's `Option` fields, plus a ghost log of the
  requests it has made to its collaborators.
- Each method is proved equal to a pure step function: `GetTokenStep`,
  `ResolveUserSigner`, `ExchangeToken`, `LookupNetworkConfig`, `CreateTransactionStep`.
  The step's `ensures` clauses state the source's promises.
- Lemmas over runs of successive calls (`RunGetToken`, `RunCreateTransaction`) state what
  memoization gives. Once a signer has been saved it is kept and no key is read again.
  Over a run in which every `getToken` call succeeds, the private key is read and the
  signer built at most once. Once a network configuration has been saved it is never
  fetched again, so over any run it is fetched at most once after it first loads.

Inputs that the model takes as parameters:

- **Time** is an integer number of milliseconds. `getToken` reads the clock twice: `now`
  for the freshness test at line 29 and `later` for the expiry at line 43.
- **Collaborators** are passed in with each call as a `Collaborators` value holding what
  they answer during that call:
  - the SDK's `UserSigner.fromPem`, `getAddress().bech32()` and `sign`;
  - `FileUtils.readFile`;
  - the native-auth client's `initialize` and `getToken`;
  - the network provider's `getAccount` and `getNetworkConfig`;
  - the interaction's `buildTransaction`.

What the code does at the edges, as the model states it:

- A cached token is reused while `now + 60000 <= expiryDate` (line 30). The comparison
  is `<=`, so a token that has exactly one minute left is still reused.

## Model

| member | source | states |
|---|---|---|
| `Encoding.HexEncode` | packages/http/src/auth/native.auth.signer.ts:42 | `toString('hex')` gives exactly two lower-case hexadecimal digits per signature byte |
| `Encoding.HexRoundTrip` | packages/http/src/auth/native.auth.signer.ts:42 | the hex string passed to the issuer decodes back to the exact signature bytes |
| `Encoding.Utf8RoundTrip` | packages/http/src/auth/native.auth.signer.ts:77 | `Buffer.from(s, 'utf8')` loses nothing: strict UTF-8 decoding gives `s` back |
| `Encoding.Utf8Concat` | packages/http/src/auth/native.auth.signer.ts:75-77 | encoding a concatenation is the concatenation of the encodings, with nothing inserted |
| `Encoding.Utf8Injective` | packages/http/src/auth/native.auth.signer.ts:77 | different texts never give the same message bytes |
| `NativeAuth.SignableMessage` | packages/http/src/auth/native.auth.signer.ts:71-79 | the signed bytes are the UTF-8 of the address immediately followed by the UTF-8 of the challenge, and decode to `address ++ challenge` |
| `NativeAuth.SignableMessageDeterminesText` | packages/http/src/auth/native.auth.signer.ts:71-79 | two equal signable messages come from the same `address ++ challenge` text |
| `NativeAuth.ResolveUserSigner` | packages/http/src/auth/native.auth.signer.ts:51-65 | a memoized signer is returned with no call; a non-empty inline key goes to `fromPem` and no file is read; the key file is read only when the inline key is absent or empty, and its text goes to `fromPem`; with neither set, the "Missing PrivateKey and SignerPrivateKeyPath" error with no call; only a successful build is memoized |
| `NativeAuth.ExchangeToken` | packages/http/src/auth/native.auth.signer.ts:35-48 | `initialize` comes first; on success the issuer receives the signer's address, the challenge that was signed and the hex of the signature over `address ++ challenge`, and the record is `{issued token, later + expirySeconds * 1000}`; once the challenge is in, `address ++ challenge` is always signed, a signing failure is returned unchanged with no token request, and a signature always yields a token; a failure stops before the issuer is asked for a token; no key source is touched |
| `NativeAuth.GetTokenStep` | packages/http/src/auth/native.auth.signer.ts:28-49 | a record with `now + 60000 <= expiryDate` is returned unchanged with no call and no state change; otherwise the signer is resolved before the issuer is contacted; a successful refresh replaces the cache with the returned record, which expires `expirySeconds` after `later`; any failure leaves the cached token as it was; with no key source, the configuration error with no call and no state change; a memoized signer is kept and no key source is touched; an inline key means no file read; "a token is cached only with a signer" is preserved |
| `NativeAuth.MemoizedSignerIsKept` | packages/http/src/auth/native.auth.signer.ts:51-54 | over any run of later calls, a memoized signer is never replaced and no key is read or built again |
| `NativeAuth.KeyResolvedAtMostOnce` | packages/http/src/auth/native.auth.signer.ts:51-62 | over any run of successful calls, the key file is read at most once and `fromPem` is called at most once, and never once a signer is memoized |
| `NativeAuth.FreshTokenIsReused` | packages/http/src/auth/native.auth.signer.ts:29-32 | while every call's `now + 60000 <= expiryDate`, every call returns the cached record, makes no call and changes nothing |
| `NativeAuth.MissingKeySourceNeverRecovers` | packages/http/src/auth/native.auth.signer.ts:56-64 | with neither key source set, every call of a run fails with the configuration error, and no collaborator is ever called |
| `NativeAuth.NativeAuthSigner.constructor` | packages/http/src/auth/native.auth.signer.ts:23-26 | keeps the configuration; no signer and no token are cached |
| `NativeAuth.NativeAuthSigner.GetUserSigner` | packages/http/src/auth/native.auth.signer.ts:51-65 | result, new `userSigner` and the requests made are those of `ResolveUserSigner` |
| `NativeAuth.NativeAuthSigner.GetSignableToken` | packages/http/src/auth/native.auth.signer.ts:67-69 | returns the challenge from `initialize` and logs one `initialize` request |
| `NativeAuth.NativeAuthSigner.RequestToken` | packages/http/src/auth/native.auth.signer.ts:35-48 | result and requests those of `ExchangeToken`; `accessTokenInfo` is assigned only on success |
| `NativeAuth.NativeAuthSigner.GetToken` | packages/http/src/auth/native.auth.signer.ts:28-49 | result, new fields and requests are those of `GetTokenStep`; keeps "a token is cached only with a signer" |
| `ScInteractions.LoadNetworkConfigResult` | packages/common/src/sc.interactions/contract.transaction.generator.ts:20-31 | a fetched configuration passes through unchanged; any fetch failure becomes `Error when loading network config` |
| `ScInteractions.LookupNetworkConfig` | packages/common/src/sc.interactions/contract.transaction.generator.ts:33-39 | a memoized configuration is returned with no fetch; otherwise exactly one fetch, and the result is the load's: the configuration, or the fixed load error whatever the proxy threw; only a successful load is memoized, and it is the value returned; a failure carries the load error and leaves the field unset |
| `ScInteractions.CreateTransactionStep` | packages/common/src/sc.interactions/contract.transaction.generator.ts:41-58 | on success the transaction is the built one with its nonce set to the account's nonce and its chain ID set to the memoized configuration's, and every other field unchanged; the account is requested first; the configuration is fetched only after the account answered and only if not memoized; a failed account lookup fetches no configuration and leaves the memo unset; a failure is the thrown error passed on unchanged, or the load error; a memoized configuration is never replaced; once build and account succeed, memo, requests and outcome are exactly those of `LookupNetworkConfig` after the account request, and a lookup failure is passed on |
| `ScInteractions.AccountNonceOverridesInteractionNonce` | packages/common/test/sc.interactions/contract.transaction.generator.spec.ts:15-42 | an interaction carrying nonce 7 and an account with nonce 10 give a transaction with nonce 10, after exactly one account request and one configuration fetch |
| `ScInteractions.MemoizedConfigIsFinal` | packages/common/src/sc.interactions/contract.transaction.generator.ts:33-39 | once memoized, the configuration is never fetched again nor replaced over any run, and every transaction carries its chain ID |
| `ScInteractions.ChainIdNeverChanges` | packages/common/src/sc.interactions/contract.transaction.generator.ts:33-49 | all transactions one generator returns carry the same chain ID |
| `ScInteractions.ConfigFetchedOnce` | packages/common/src/sc.interactions/contract.transaction.generator.ts:33-39 | from a fresh generator, a non-empty run of successful calls fetches the configuration exactly once |
| `ScInteractions.Transaction.SetNonce` | packages/common/src/sc.interactions/contract.transaction.generator.ts:46 | only the transaction's nonce changes |
| `ScInteractions.Transaction.SetChainID` | packages/common/src/sc.interactions/contract.transaction.generator.ts:49 | only the transaction's chain ID changes |
| `ScInteractions.ContractTransactionGenerator.constructor` | packages/common/src/sc.interactions/contract.transaction.generator.ts:14-18 | no configuration is memoized |
| `ScInteractions.ContractTransactionGenerator.LoadNetworkConfig` | packages/common/src/sc.interactions/contract.transaction.generator.ts:20-31 | the result is `LoadNetworkConfigResult` of the provider's answer, after one fetch |
| `ScInteractions.ContractTransactionGenerator.GetNetworkConfig` | packages/common/src/sc.interactions/contract.transaction.generator.ts:33-39 | result, new field and requests are those of `LookupNetworkConfig` |
| `ScInteractions.ContractTransactionGenerator.CreateTransaction` | packages/common/src/sc.interactions/contract.transaction.generator.ts:41-58 | a freshly allocated transaction holding `CreateTransactionStep`'s fields, or its error; the new field and requests are those of `CreateTransactionStep` |

## Left out

- Cryptography and address encoding are not modelled. `UserSigner.fromPem`, `sign` and
  bech32 `getAddress` are SDK code and are inputs to the model. `SignableMessage`'s
  `serializeForSigning` is folded into `sign`.
- The native-auth client is not modelled: neither the internals of `initialize` and
  `getToken`, nor the wire format. Both are inputs to the model.
- `NativeAuth.ExchangeToken`: `nativeAuthClient.getToken` (line 42) is called without
  `await`, and the model treats it as a total function that always returns a token. An
  issuer-side rejection at that step therefore never appears as a failure of `getToken`.
- `NativeAuth.ExchangeToken`: `getAddress().bech32()` (line 36) and
  `nativeAuthClient.getToken` (line 42) are total functions in the model. If either threw
  synchronously, the signer would already be saved and the cached token left unchanged.
  That throwing path is not modelled.
- The default of `expirySeconds` is inherited from the client's configuration class, which
  is not part of this model. It is a field of `SignerConfig`.
- The constructor's `Object.assign` over default values is not modelled. `SignerConfig` is
  the configuration after the merge.
- `FileUtils.readFile` and Buffer's `toString()` are one input that returns the key file's
  text. Lossy decoding of a file that is not UTF-8 is not modelled.
- Logging with `OriginLogger` is left out. It carries no state.
- Concurrency is left out. Calls are sequential, so two refreshes cannot race, and the
  points where an `await` suspends are not represented.
- `Date` is modelled as integer milliseconds. The model assumes that `addMinutes(1)` adds
  60000 ms and `addSeconds(n)` adds n * 1000 ms. The date extensions are not part of this
  model. An invalid `Date` (`NaN`) is not modelled.
- Text is a sequence of Unicode scalar values. A JavaScript string holding a lone UTF-16
  surrogate, which `Buffer.from` would turn into U+FFFD, is not representable.
- `Interaction.buildTransaction`, `getAccount` and `getNetworkConfig` are inputs to the
  model. The SDK's `Transaction`, `NetworkConfig` and `AccountOnNetwork` are reduced to the
  fields listed in `contract_transaction_generator.dfy`.
- `CreateTransaction` does not model the transaction object's identity. The SDK builds
  the transaction; here the method allocates it from the built fields.
- `UrlUtils.isLocalhost` is left out. Only its test is available, so a model would have to
  invent the implementation.
- `DisableFieldsInterceptorOnController` is left out. It is framework decorator
  registration with no logic of its own.
- `NativeAuthInvalidOriginError` is left out. It is a one-line message template.
