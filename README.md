# pretix-eth payment flows in Dafny

This project models the two browser-side payment flows of the pretix-eth
plugin and proves properties about them.

**The hosted-iframe channel** (`pretix_eth/web3modal/src/core.js`) has four parts:

- **`makePayment`.** It resets the page's error area and fetches the order
  details. It stops with an "already paid" error when the order says so.
  Otherwise it opens the 3cities payment iframe.
- **The listener slot.** Opening the iframe installs a single `message` event
  handler in a module-level slot. The handler accepts events only from the
  iframe's origin and dispatches on `data.kind`.
- **The URL.** The iframe URL is an opaque base URL followed by
  `&name=value` segments, each value percent-encoded with
  `encodeURIComponent`.
- **The proof record.** A `TransactionSigned` event is turned into the
  record handed to the submission buffer.

**The direct-wallet flow** (`pretix_eth/static/pretix_eth/web3modal.js`) is a
state machine over the page globals `selectedAccount`, `signedByAccount` and
`hasSigned`. Each run of `makePayment` does the following:

1. It selects the wallet's first account and fetches the order details.
2. It stops when the order is already paid.
3. It asks the wallet to switch chains when the order's chain id differs
   from the wallet's. The requested id is `'0x' + chain_id.toString(16)`.
4. It asks for a signature when nothing has been signed yet, or when the
   selected account is not the last signer.
5. It sends an ERC-20 or a native transfer and submits the transaction hash
   together with the signature.

Disconnecting closes the provider when it can be closed, then forgets the
selected account and nothing else. A failed close, or a second disconnect
after the provider was cleared, throws before the account is forgotten.

JavaScript values are a `JsValue` datatype, so the model keeps the source's
edge cases:

- `=== true` against a truthy value;
- `!== null` against `undefined`;
- `typeof x !== 'undefined'`;
- the TypeError thrown by reading a property of `undefined` or `null`.

Everything the code waits on is supplied as data: the wallet, `fetch`, the
URL parser's `origin` and the submission buffer. An outcome that can go
either way is a `Completion` (normal value or throw).

Only some calls are recorded. In the direct-wallet flow these are the calls
listed in `WalletFlow.Action`: the details fetch, the chain-switch request,
the signature request, the two transfers, `submitSignature` and `showError`.
`getAccounts` and `getChainId` are not recorded; only their answers are
supplied. In the iframe channel, the effects are recorded as the state of
`IframeHost`:

- the registered listeners;
- the iframe containers;
- what the error area is told;
- the records handed to the submission buffer.

The details fetch of the iframe channel is not recorded; only its outcome is
supplied.

The files are:

- `wrappers.dfy`: `Option` and sequence associativity.
- `js.dfy`: JavaScript values, property reads, strict equality, the value
  of a hexadecimal digit, and `String(n)` for integers.
- `percent_encoding.dfy`: `encodeURIComponent` (UTF-8, then `%XX` escapes
  for everything outside the unreserved set). Its inverse is
  `decodeURIComponent`.
- `iframe_url.dfy`: the URL builder and the query parser that undoes it.
- `proof_record.dfy`: the proof record. A declarative definition and the
  step-by-step serialiser are proved equal.
- `iframe_channel.dfy`: the listener slot, the dispatcher and `makePayment`
  of the iframe channel, as the class `IframeHost`.
- `chain_id_hex.dfy`: the requested chain id and a reader for hexadecimal
  quantities.
- `wallet_flow.dfy`: the direct-wallet run as a function (`Run`) and as the
  class `WalletSession`, whose methods are proved to perform `Run`.

## Behaviour worth knowing

- **The handler is never unregistered on `TransactionSigned` or
  `CloseIframe`.** Closing the iframe only removes its container from the
  document. The handler is replaced only when the next iframe is opened
  (`IframeChannel.IframeHost.Receive`).
- **Only the last signer is remembered.** Account A signs, then account B
  signs, then the wallet switches back to A: A is asked to sign again
  (`WalletFlow.SwitchingBackSignsAgain`).
- **A run that does not sign submits an undefined signature.** Such a run
  submits the transaction hash with `messageSignature` still `undefined`
  (`WalletFlow.NoSignatureWithoutSigning`, `WalletFlow.TransferShape`).

## Model

| member | source | states |
|---|---|---|
| `PercentEncoding.DecodeEncode` | pretix_eth/web3modal/src/core.js:67-70 | `decodeURIComponent(encodeURIComponent(s)) == s` for every string without lone surrogates. |
| `PercentEncoding.NoRawDelimiters` | pretix_eth/web3modal/src/core.js:67-70 | An encoded value contains no raw `&`, `=` or `#`. |
| `PercentEncoding.DecodeEncodedChar` | pretix_eth/web3modal/src/core.js:67 | Decoding an encoded character followed by text that decodes to `t` gives that character followed by `t`. |
| `IframeUrl.ComputeUrl` | pretix_eth/web3modal/src/core.js:64-81 | The builder's push-and-join produces the base URL followed by the configured parameters. Parsing what follows the base gives back exactly those parameters, values decoded, in order. |
| `IframeUrl.ParamsLayout` | pretix_eth/web3modal/src/core.js:66-78 | The parameters are listed in a fixed order: `receiverAddress`, `amount`, `currency`, `usdPerEth` first, then the optional ones. Each optional parameter appears exactly when its option is set, in the fixed optional order. `verifyEip1271Signature` never appears without `authenticateSenderAddress`. |
| `IframeUrl.ParamNames` | pretix_eth/web3modal/src/core.js:66-78 | The URL's parameter names are the four mandatory names followed by the selected optional names. |
| `IframeUrl.ParseQueryRoundTrip` | pretix_eth/web3modal/src/core.js:66-79 | The appended `&name=value` text parses back to its parameter list whenever the names are plain words. |
| `IframeUrl.UrlRoundTrip` | pretix_eth/web3modal/src/core.js:66-79 | The URL starts with the base, and the rest parses back to the parameters. |
| `IframeUrl.ParamsRoundTrip` | pretix_eth/web3modal/src/core.js:66-80 | For any values and any options, the URL splits back into its base and its parameters. |
| `IframeUrl.KnownNamesArePlain` | pretix_eth/web3modal/src/core.js:67-78 | The ten parameter names contain no `&` or `=` and are pairwise distinct. |
| `ProofRecord.Serialize` | pretix_eth/web3modal/src/core.js:147-166 | The serialiser builds the record described by `ProofOf`: the object literal, then the conditional copies. It throws the same TypeError when the signed message is missing. |
| `ProofRecord.BuildRecord` | pretix_eth/web3modal/src/core.js:148-166 | The object literal followed by the five conditional copies yields the record of `KeyOrder`. |
| `ProofRecord.CopyIfDefined` | pretix_eth/web3modal/src/core.js:162-166 | Each conditional copy extends the record by one optional key exactly when the payload defines it. |
| `ProofRecord.ProofFailsIffNoMessage` | pretix_eth/web3modal/src/core.js:150 | Building the record fails exactly when the signed message is undefined or null, and then with a TypeError. |
| `ProofRecord.ProofKeys` | pretix_eth/web3modal/src/core.js:148-166 | The record's keys are the nine base keys in literal order, then the defined optional keys in copy order. Every key appears once, and the keys are exactly those holding a value. |
| `ProofRecord.ProofBaseValues` | pretix_eth/web3modal/src/core.js:148-159 | The nine base keys are always present. `senderAddress` comes from the signed message. `message` is the message's JSON text. The others are the payload's fields, possibly `undefined`. |
| `ProofRecord.ProofOptionalValues` | pretix_eth/web3modal/src/core.js:161-166 | `receiptUrl`, `tokenCurrency`, `tokenContractAddress`, `chainName` and `isTestnet` are each present exactly when the payload defines them, with the payload's value unchanged. |
| `ProofRecord.OptionalField` | pretix_eth/web3modal/src/core.js:162-166 | In a record of the base keys plus selected optional keys, an optional key is present exactly when selected, and holds its value. |
| `IframeChannel.ForeignOriginCallsNothing` | pretix_eth/web3modal/src/core.js:20 | An event from any other origin is ignored and calls no callback. |
| `IframeChannel.TrustedObjectDispatch` | pretix_eth/web3modal/src/core.js:21-27 | For a trusted event with object data, each callback is called exactly once for its own kind: `TransactionSigned` calls `onTransactionSigned` with the event data, and `CloseIframe` calls `onCloseIframe`. Any other kind, `Checkout` included, calls nothing. |
| `IframeChannel.NonObjectDataCallsNothing` | pretix_eth/web3modal/src/core.js:21-28 | An event whose data is null, undefined or a primitive calls no callback. |
| `IframeChannel.Without` | pretix_eth/web3modal/src/core.js:15 | Unregistering a handler leaves every other listener registered and that handler not registered. |
| `IframeChannel.IframeHost.constructor` | pretix_eth/web3modal/src/core.js:12 | A page starts with an empty slot, no listeners, no iframe and nothing shown. |
| `IframeChannel.IframeHost.InstallHandler` | pretix_eth/web3modal/src/core.js:13-31 | After create-or-update, exactly one handler is registered: the new one, trusting the given origin. The previous handler is no longer registered. |
| `IframeChannel.IframeHost.Receive` | pretix_eth/web3modal/src/core.js:19-30 | No event unregisters the handler. `TransactionSigned` hands over the record. `CloseIframe` removes the first iframe container. Every other event, including one from a foreign origin, changes nothing. |
| `IframeChannel.IframeHost.RemoveContainer` | pretix_eth/web3modal/src/core.js:84-87 | Closing removes the first iframe container, if there is one, and changes nothing else. |
| `IframeChannel.IframeHost.ScheduleSubmission` | pretix_eth/web3modal/src/core.js:147-172 | The payload's proof record is handed to the buffer. When the buffer fails, the error shown carries the whole record. A payload without a signed message hands over nothing. |
| `IframeChannel.IframeHost.MakePayment` | pretix_eth/web3modal/src/core.js:96-130 | The error area is reset first. An order already paid shows the already-paid error and creates no listener and no iframe. A failed start shows its error. A successful start registers exactly one handler, for the base URL's origin, and opens one iframe on the computed URL. |
| `IframeChannel.IframeHost.TryToStartPaymentFlow` | pretix_eth/web3modal/src/core.js:97-120 | The start stores the fetched details and throws exactly what `StartOf` says. It shows the already-paid error only for a paid order, and installs the handler and opens the iframe only on success. |
| `IframeChannel.IframeHost.Make3citiesIframe` | pretix_eth/web3modal/src/core.js:34-82 | The handler for the base URL's origin is installed before the iframe is opened on the URL that `ComputeUrl` builds. When the origin throws, nothing changes. |
| `IframeChannel.StartStopsWhenPaid` | pretix_eth/web3modal/src/core.js:101-104 | The start stops exactly when `is_signature_submitted` is strictly `true`. Any other readable order opens the iframe once the base URL has an origin. |
| `IframeChannel.StartFailsWithoutDetails` | pretix_eth/web3modal/src/core.js:101 | Order details that are undefined or null make the start fail with a TypeError. |
| `IframeChannel.OpenedIframe` | pretix_eth/web3modal/src/core.js:112-119 | An opened iframe trusts its base URL's origin. Its URL is that base followed by the order's recipient, amount, currency and rate, which parse back out of it. |
| `ChainIdHex.ChainIdRoundTrip` | pretix_eth/static/pretix_eth/web3modal.js:84 | For every non-negative integral chain id, the requested `0x…` id reads back as a hexadecimal quantity to the chain id itself. |
| `ChainIdHex.ChainIdCanonical` | pretix_eth/static/pretix_eth/web3modal.js:84 | The requested id is `0x` followed by lowercase hex digits, with a leading zero only for chain 0. |
| `ChainIdHex.NegativeChainIdUnreadable` | pretix_eth/static/pretix_eth/web3modal.js:84 | A negative chain id is rendered with a minus sign and reads as no quantity. |
| `ChainIdHex.DesiredChainIdFailure` | pretix_eth/static/pretix_eth/web3modal.js:84 | Rendering the id throws a TypeError exactly when `chain_id` is undefined or null. |
| `ChainIdHex.DesiredChainIdOfString` | pretix_eth/static/pretix_eth/web3modal.js:84 | A string chain id is sent unchanged behind `0x`, because only numbers honour the radix. |
| `ChainIdHex.ParseHexDigits` | pretix_eth/static/pretix_eth/web3modal.js:84 | The base-16 digits of `n` read back to `n`. |
| `WalletFlow.PaymentTransactionDataFailure` | pretix_eth/static/pretix_eth/web3modal.js:11-21 | Fetching the details fails exactly when the request fails, the status is 400 or above, or the body does not parse. Otherwise it gives the parsed body. |
| `WalletFlow.AlreadyPaidStops` | pretix_eth/static/pretix_eth/web3modal.js:71-75 | For an order already paid, the run fetches, shows the already-paid error and asks the wallet for no chain switch, signature or transfer. Only the selected account changes. |
| `WalletFlow.ChainSwitchRequest` | pretix_eth/static/pretix_eth/web3modal.js:80-91 | A switch is requested exactly when `chain_id !== currentChainId`, and then for `'0x' + chain_id.toString(16)`. For a non-negative number, that id parses back to `chain_id`. It throws only for an undefined or null chain id, or a missing injected provider. |
| `WalletFlow.SignatureRequest` | pretix_eth/static/pretix_eth/web3modal.js:93-100 | A signature of the order's message by the selected account is requested exactly when `!hasSigned \|\| selectedAccount !== signedByAccount`. Once signed, `hasSigned` holds and the last signer is the selected account. A step that is skipped or refused changes nothing. |
| `WalletFlow.NoSignatureWithoutSigning` | pretix_eth/static/pretix_eth/web3modal.js:94-100 | `messageSignature` is undefined whenever the run did not sign. Otherwise it is the wallet's signature. |
| `WalletFlow.Submissions` | pretix_eth/static/pretix_eth/web3modal.js:116-127 | The submissions of a call list are exactly its `submitSignature` calls. |
| `WalletFlow.SubmissionsAppend` | pretix_eth/static/pretix_eth/web3modal.js:116-127 | The submissions of two consecutive call lists are those of the first followed by those of the second. |
| `WalletFlow.TransferShape` | pretix_eth/static/pretix_eth/web3modal.js:102-131 | The ERC-20 branch is taken exactly when `erc20_contract_address !== null`. Otherwise the native transfer goes from the selected account to `recipient_address` for `amount`. Each hash the transfer yields leads to exactly one submission, carrying that hash and the run's `messageSignature`. |
| `WalletFlow.RunKeepsSigned` | pretix_eth/static/pretix_eth/web3modal.js:67-99 | A run selects the wallet's first account and never resets `hasSigned` to false. It changes the last signer only to the account it selected. A run whose account query throws changes nothing. |
| `WalletFlow.CooperativeRun` | pretix_eth/static/pretix_eth/web3modal.js:61-139 | Consider a run that reaches the signature step, with the chains equal or a switch request sent, and is signed. It leaves the account as both selected account and last signer. It asks for a signature exactly when the re-sign condition holds. |
| `WalletFlow.NoSignatureRequestInTransfer` | pretix_eth/static/pretix_eth/web3modal.js:102-131 | The transfer step never asks for a signature. |
| `WalletFlow.SwitchingBackSignsAgain` | pretix_eth/static/pretix_eth/web3modal.js:95-99 | After A signs and then B signs, switching back to A asks A to sign again. |
| `WalletFlow.ReconnectSameAccountSkipsSigning` | pretix_eth/static/pretix_eth/web3modal.js:189 | Disconnect keeps the last signer, so reconnecting the same account asks for no new signature. |
| `WalletFlow.WalletSession.constructor` | pretix_eth/static/pretix_eth/web3modal.js:3-5 | A page starts with `selectedAccount = ''`, `signedByAccount = ''`, `hasSigned = false` and no calls. |
| `WalletFlow.WalletSession.MakePayment` | pretix_eth/static/pretix_eth/web3modal.js:61-139 | One run updates the globals and records the calls as `Run` says, with a thrown error shown at the end. |
| `WalletFlow.WalletSession.TryMakePayment` | pretix_eth/static/pretix_eth/web3modal.js:62-132 | The inner body runs step by step as `TryRun` says: select the account, fetch, stop when paid, then the remaining steps. It returns what the body throws. |
| `WalletFlow.WalletSession.PayForOrder` | pretix_eth/static/pretix_eth/web3modal.js:79-131 | The chain check, signature and transfer run step by step as `AfterPaidCheck` says. Each step is skipped once an earlier one throws. |
| `WalletFlow.WalletSession.SwitchChainIfNeeded` | pretix_eth/static/pretix_eth/web3modal.js:80-91 | The chain step records the switch request of `ChainSwitch`, or throws its error, and leaves the globals unchanged. |
| `WalletFlow.WalletSession.SignIfNeeded` | pretix_eth/static/pretix_eth/web3modal.js:93-100 | The signature step updates `hasSigned` and `signedByAccount` as `Signing` says. It returns the `messageSignature` of `SignatureOf`, which is undefined when nothing was signed. |
| `WalletFlow.WalletSession.SendPayment` | pretix_eth/static/pretix_eth/web3modal.js:102-131 | The transfer step records the calls of `Transfer` and leaves the globals unchanged. |
| `WalletFlow.WalletSession.Disconnect` | pretix_eth/static/pretix_eth/web3modal.js:176-189 | Disconnect throws a TypeError when `provider` is undefined or null, and throws the close failure when a provider with `close` fails to close. In both cases the state is unchanged. Otherwise it sets `selectedAccount` to null, and sets `provider` to null when the provider was closed. `signedByAccount`, `hasSigned` and the call log are always kept. |
| `WalletFlow.DisconnectAfterClose` | pretix_eth/static/pretix_eth/web3modal.js:178-186 | A disconnect that closes the provider goes through and leaves a provider on which the next disconnect throws a TypeError. A disconnect whose close fails leaves the provider, so the next one closes again. |

## Left out

- `pretix_eth/verifier/verify_payment.py`: it is a wrapper around a subprocess, file reads and a gRPC stub, with no decision logic of its own.
- Building the modal and the iframe element (`makeIframeModal`): an opened iframe is recorded as one container holding its URL. Page set-up, button wiring and the `#prepare`/`#connected` display toggles in `web3modal.js` are not modelled, and neither are the internals of `showError`; what it is told is recorded.
- The modal's own ways of closing (its X button, a click outside the iframe, the Escape key) remove the container without any `CloseIframe` message and leave the handler installed. These removals are not modelled: `containers` changes only through `CloseIframe`.
- `interface.js` and `transactionDetailsBuffer.js` are not part of this model. `getPaymentTransactionData(true)` of the iframe channel is a fetched `Completion`, and `addPendingTransactionDetails` is an optional failure.
- Wallet RPC: the answers of `getAccounts`, `getChainId`, `personal.sign` and `sendTransaction` are supplied in `Responses`. Only the signature request, the transfers and the chain-switch request are recorded as actions.
- `web3ModalOnConnect` is not modelled: `Web3Modal.connect`, the `accountsChanged`/`chainChanged`/`networkChanged` subscriptions and the button toggling are outside the model. A subscription's effect is simply another `MakePayment` run.
- For disconnect, the provider's `close()` and `clearCachedProvider()` are one supplied outcome. The page's `provider` is passed in and the new value is returned, because the code that sets it on connect is not modelled.
- Console logging (`console.error`/`console.log` in both files) is not modelled: it changes no state the model tracks.
- The `wallet_switchEthereumChain` request is not awaited by the source, so its outcome is not modelled.
- The ERC-20 transfer body refers to identifiers that `web3modal.js` does not define. Only the branch choice is modelled, with the transfer's hash or throw given as a response.
- `JSON.stringify` of the signed message is kept opaque: the record holds the serialised value, not its text. The lost-details error likewise carries the record, not its JSON text.
- The query string of the details fetch (`URLSearchParams`) and the JSON body that `submitSignature` posts are not encoded: the recorded calls carry their arguments.
- `new URL(tcBaseUrl).origin` is a parameter, because URL parsing is outside this model.
- Overlapping `makePayment` runs started by wallet events, and the ordering of async callbacks: each run is modelled as one sequential step, and an event is delivered between runs.
- The `hasPaid` flag is never read.
- JSON arrays are not distinguished from objects: an array renders as `[object Object]` where JavaScript's `String` joins its elements. This affects a non-string domain or URL value.
- `Js.Prop`: a property read on a string, number or boolean gives `undefined`. This holds for the keys the scripts read, but not for keys of those types such as `length` or an index.
- Numbers are integers of unbounded size. Not modelled: fractional and non-finite chain ids and amounts, the exponent form `String(n)` uses for magnitudes of 1e21 and above, the loss of precision above 2^53, and the BigInt chain ids some web3 versions return.
- `PercentEncoding.DecodeEncode`: holds for strings of Unicode scalar values. `encodeURIComponent` throws a URIError on a lone surrogate, which a `char` here cannot hold.
- `Js.StrictEquals`: compares two objects as never identical. The source compares values read from JSON (`is_signature_submitted`, `kind`, `chain_id`) and values the wallet supplies (the account addresses compared at `web3modal.js` line 95, the current chain id). JSON values are fresh objects, so identity never decides those comparisons. A wallet that returned the same account object twice would make `selectedAccount !== signedByAccount` false where the model says true.
- `WalletFlow.CooperativeRun`: requires the account to be a primitive value, because of the object-identity simplification above.
- `IframeChannel.IframeHost.Receive`: delivers an event to the slot's handler. Under `Valid()` that handler is the only listener this script registered, so listeners registered by other code are not modelled.
