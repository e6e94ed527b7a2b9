# Wallet connection and transaction progress of the Oasis borrow dashboard, in Dafny

This project models the decision logic of a DeFi dashboard frontend:

- **Transaction progress** (`Form`, from `helpers/form.ts`). `transactionToX` turns a
  stream of transaction states into UI values. It emits a start value first. It maps
  failed, cancelled and errored states to a fiasco value and pending states to a
  waiting value. It stops right after the first `Success` with enough confirmations.
  Streams are finite sequences here, so the pipeline is a function from a sequence of
  states to a sequence of values.
- **Gas estimation** (`Form.EstimationOutcome`, `Form.DoGasEstimation`). This is a
  one-shot step on a form state that carries a gas-estimation status. The state is first
  emitted as `calculating`. The final emission is the state passed through, the figures
  dropped (status `unset`), the computed ETH/USD/DAI costs (status `calculated`), or
  the error (status `error`).
- **Wallet connection** (`ConnectWallet`, from `components/connectWallet/ConnectWallet.tsx`;
  `Networks`, from `blockchain/config.ts`):
  - choosing and configuring a connector for a chain id, which can fail;
  - the status guard of `connect`;
  - the fixed-priority naming of the injected wallet;
  - the wallet buttons: which one shows a spinner and what a click does;
  - the auto-connect subscription. It is a class with the captured `firstTime` flag and
    the browser-storage entry as fields. One method handles each emission.

Outside effects are values. A connector is the configuration it would be built with.
A call to the wallet context's `connect` is returned as a `ConnectCall`. Browser storage
is an `Option<StoredEntry>` field. The injected provider's chain id and the Infura project
id are an `Environment` parameter. The browser globals inspected are a `BrowserWindow`
parameter.

## Model

| member | source | states |
|---|---|---|
| `Form.FormStageChangeTo` | helpers/form.ts:63-65 | the event is tagged as a stage change and carries the given stage |
| `Form.ProgressChangeTo` | helpers/form.ts:146-148 | the event is tagged as progress and carries the given, possibly absent, stage |
| `Form.Consumed` | helpers/form.ts:223-227 | takeWhileInclusive: the result is a prefix of the stream; every state before its last keeps the stream going; when it is shorter than the stream, its last state ends it |
| `Form.ConsumedIsFirstEnd` | helpers/form.ts:223-227 | when state k is the first that ends the stream, exactly the states up to and including k are read |
| `Form.ConsumedAllWhenNoEnd` | helpers/form.ts:223-227 | when no state ends the stream, every state is read |
| `Form.DefaultThresholdEndsAtFirstSuccess` | helpers/form.ts:219-226 | with the default threshold of 0, the stream is read up to and including its first Success |
| `Form.Outputs` | helpers/form.ts:229-245 | the switch on one state: a cancelled, failed or errored state gives the fiasco argument's values; a propagating or waiting-for-confirmation state gives the waiting argument's values; a Success gives the success handler's values, or nothing without a handler; waiting for approval gives nothing |
| `Form.FlatMap` | helpers/form.ts:228-246 | no states give no values, and a single state gives exactly that state's values |
| `Form.FlatMapOfConcatenation` | helpers/form.ts:228-246 | flatMap is applied state by state: mapping two streams one after the other gives the first's values followed by the second's |
| `Form.TransactionToX` | helpers/form.ts:221-248 | the output always begins with the start value, and is only the start value for an empty stream |
| `Form.NothingAfterEndIsRead` | helpers/form.ts:223-227 | appending any states after a state that ends the stream leaves the output unchanged |
| `Form.FirstStateStep` | helpers/form.ts:221-248 | the first state is mapped; the rest of the stream is mapped after it only when the first state keeps the stream going |
| `Form.FiascoContinues` | helpers/form.ts:231-234 | a cancelled, failed or errored state yields the fiasco value (constant or handler output) and later states are still mapped |
| `Form.PendingContinues` | helpers/form.ts:235-239 | a propagating or waiting-for-confirmation state yields the waiting value and later states are still mapped |
| `Form.ApprovalIsSilent` | helpers/form.ts:242-243 | a state waiting for approval yields nothing and does not end the stream |
| `Form.ConfirmedSuccessEnds` | helpers/form.ts:224-241 | a Success with at least the threshold of confirmations yields the success handler's output, or nothing without a handler, and ends the output |
| `Form.UnconfirmedSuccessContinues` | helpers/form.ts:224-241 | a Success below the threshold is mapped by the success handler (nothing without one) and the stream goes on |
| `Form.ConstantHandlersEmitOnlyConstants` | helpers/form.ts:228-247 | with constant waiting and fiasco values and no success handler, the output is the start value followed, in order, by the fiasco value for each failed state read and the waiting value for each pending state read |
| `Form.EstimationOutcome` | helpers/form.ts:280-321 | an error sets status error and records it, changing nothing else; the error comes from an input stream, from `call` throwing (checked before the gas price), or from the stream `call` returned erroring (only when there is a gas price); when the input streams do not error, a state not `unset` passes through unchanged; no gas price or no call gives status unset without the ETH and USD figures, keeping every other field including DAI; a gas figure g gives status calculated, gasEstimation g, ETH cost gasPrice*g/10^18, a USD figure exactly when the ETH price is known (ETH cost times price), a DAI figure exactly when USD and the DAI price are known (their quotient, not finite for a zero DAI price) |
| `Form.DoGasEstimation` | helpers/form.ts:271-326 | two emissions, the second being exactly EstimationOutcome of the inputs, state and call: the input state marked calculating with nothing else changed, then the outcome, which, when the input streams do not error, is the input unchanged for a state not `unset`, and never calculating for an `unset` input |
| `Form.EstimationIsIdempotent` | helpers/form.ts:281-310 | estimating again, with the same inputs, the outcome of an estimation changes nothing |
| `Networks.NetworksById` | blockchain/config.ts:44-258 | the known networks are exactly chain ids 1, 42, 2137, 106 and 111, each keyed by its own id with a non-empty RPC url |
| `Networks.RpcUrls` | components/connectWallet/ConnectWallet.tsx:38-41 | an RPC url is known, and non-empty, for exactly the supported chain ids |
| `ConnectWallet.GetConnector` | components/connectWallet/ConnectWallet.tsx:43-96 | fails exactly for a chain id without an RPC url (unsupported chain) or, for the injected kind, a provider on another chain; otherwise the connector has the requested kind and is configured for the requested network (the network connector's default chain is that network), and the ledger and magic-link connectors get the options |
| `ConnectWallet.Connect` | components/connectWallet/ConnectWallet.tsx:134-153 | a connect call is made exactly when the status is error, notConnected or connectedReadonly and the connector can be built; it carries the requested kind and a connector for the chain; a failed connector makes no call |
| `ConnectWallet.IndexFrom` | components/connectWallet/ConnectWallet.tsx:176-180 | the first position at or after the start where the text occurs, or -1 when it occurs nowhere after it |
| `ConnectWallet.IndexOf` | components/connectWallet/ConnectWallet.tsx:176-180 | indexOf: the first occurrence, or -1 exactly when the text occurs nowhere |
| `ConnectWallet.GetInjectedWalletKind` | components/connectWallet/ConnectWallet.tsx:155-183 | imToken beats everything; undefined exactly when there is no imToken and no provider; then, in order, the isAlphaWallet, isMetaMask and isTrust flags give "Alpha Wallet", "MetaMask" and "Trust", a defined SOFA or __CIPHER__ gives "Coinbase", the EthereumProvider and Web3FrameProvider constructors give "Mist" and "Parity"; with none of these, a host containing "infura" gives "Infura", else one containing "localhost" gives "Localhost", and only these hosts do; the default 'Injected provider' exactly when no earlier check matches |
| `ConnectWallet.GetConnectionKindMessage` | components/connectWallet/ConnectWallet.tsx:185-202 | total over the seven kinds: the injected kind is named by the injected-wallet check, every other kind by a non-empty name |
| `ConnectWallet.ConnectionKindMessagesDistinct` | components/connectWallet/ConnectWallet.tsx:189-200 | two different non-injected kinds get different names |
| `ConnectWallet.WalletButtonFor` | components/connectWallet/ConnectWallet.tsx:315-336 | a button shows the spinner exactly when the context is connecting its kind; it has no handler exactly while connecting; the ledger button opens account selection; any other button connects with its kind to the current chain; the description is 'connect-confirm' when connecting and 'connect-with' otherwise |
| `ConnectWallet.WalletButtons` | components/connectWallet/ConnectWallet.tsx:103-109 | one button per supported wallet, in the order of the wallet list |
| `ConnectWallet.ButtonsWhileConnecting` | components/connectWallet/ConnectWallet.tsx:315-332 | while connecting no button can be clicked and only the button of the connecting kind, at most one, shows the spinner |
| `ConnectWallet.Click` | components/connectWallet/ConnectWallet.tsx:330-335 | no handler does nothing; the ledger handler opens account selection; a connect handler attempts `connect`, which makes a call exactly from an allowed status with a buildable connector, carrying the handler's kind and a connector for its chain |
| `ConnectWallet.ClickingAButton` | components/connectWallet/ConnectWallet.tsx:330-335 | a click does nothing while connecting; the ledger button opens account selection and never connects; any other button connects only from a status that allows it, with its own kind |
| `ConnectWallet.PersistedEntry` | components/connectWallet/ConnectWallet.tsx:373-385 | a record is stored exactly when the context is connected; it holds the connection kind, and the magic-link email only for the magic-link kind |
| `ConnectWallet.TryConnect` | components/connectWallet/ConnectWallet.tsx:354-385 | the try block throws exactly for a not-connected context whose first emission holds an unparsable entry or a software wallet with no buildable connector, or, without a stored entry read on a first emission, has a read-only account and an unsupported default chain; a call it makes is from notConnected, never for a hardware wallet, and carries the stored kind (and magic-link email) when a first emission reads a stored entry, the network kind and a read-only account otherwise |
| `ConnectWallet.ReadonlyFallback` | components/connectWallet/ConnectWallet.tsx:386-390 | the catch block connects exactly for a not-connected context with a read-only account and a supported default chain, with the network kind and a connector for that chain |
| `ConnectWallet.AutoConnectStep` | components/connectWallet/ConnectWallet.tsx:353-394 | one emission: a call is made only from notConnected, never for a hardware wallet, and for the default chain; the entry afterwards is left as it was exactly when a not-connected emission throws, and is otherwise the connected record or removed |
| `ConnectWallet.OnlyNotConnectedConnects` | components/connectWallet/ConnectWallet.tsx:356-371 | auto-connect makes a connect call only from a not-connected context |
| `ConnectWallet.HardwareWalletsNeverAutoConnected` | components/connectWallet/ConnectWallet.tsx:360-366 | auto-connect never connects a ledger or trezor |
| `ConnectWallet.OnlyReadonlyWithoutStoredEntry` | components/connectWallet/ConnectWallet.tsx:356-371 | on every emission after the first, and on a first emission that finds no stored entry, the only connection auto-connect makes is the read-only one, and only with a read-only account |
| `ConnectWallet.ReconnectsFromStorage` | components/connectWallet/ConnectWallet.tsx:355-385 | on the first emission, a not-connected context with a stored software wallet whose connector can be built for the default chain reconnects with the stored kind and email, and the entry is then removed |
| `ConnectWallet.RememberedHardwareWalletBlocksReadonly` | components/connectWallet/ConnectWallet.tsx:356-385 | on the first emission, a stored ledger or trezor means no connection at all, even with a read-only account, and the entry is removed |
| `ConnectWallet.ReadonlyConnect` | components/connectWallet/ConnectWallet.tsx:367-385 | otherwise a not-connected context with a read-only account connects with the network kind to the default chain exactly when that chain is supported, and the entry is removed |
| `ConnectWallet.ThrowFallsBackToReadonly` | components/connectWallet/ConnectWallet.tsx:386-390 | when the first emission throws (unparsable entry or failed connector), the read-only fallback runs and the entry is left as it was |
| `ConnectWallet.StorageFollowsConnection` | components/connectWallet/ConnectWallet.tsx:354-390 | after an emission the entry is the connected record when connected and removed for any status other than notConnected; for notConnected it is removed after every emission that does not throw (always on a later emission without a read-only account), and left as it was exactly when the first emission finds an unparsable entry or a software wallet without a buildable connector, or an emission that reads no stored entry (a later one, or a first one without an entry) has a read-only account and an unsupported chain |
| `ConnectWallet.RememberedConnectionIsRestored` | components/connectWallet/ConnectWallet.tsx:355-385 | round trip: for a connected wallet that is neither a ledger nor a trezor, on a supported default chain, and (for the injected kind) with the injected provider on that chain, the record a connected emission stores makes the first emission of the next session reconnect with the same kind (and magic-link email) |
| `ConnectWallet.AutoConnect.constructor` | components/connectWallet/ConnectWallet.tsx:350 | a new subscription starts with firstTime set and the storage as found |
| `ConnectWallet.AutoConnect.OnEmission` | components/connectWallet/ConnectWallet.tsx:353-394 | each emission makes the connect call and leaves the storage entry that AutoConnectStep describes, and clears firstTime whatever the outcome |

## Left out

- RxJS scheduling and asynchrony. Each stream is a finite sequence of its emissions. `flatMap` is modelled as concatenation, as if every inner stream completes before the next state arrives.
- Form.TransactionToX: a handler's observable is modelled as the finite sequence it emits synchronously. Interleaving of inner streams is not modelled.
- Form.EstimationOutcome: the caller's `call` is modelled as one outcome: undefined, a stream with a single gas figure, a synchronous throw, or a stream that errors. A call stream that emits several figures, or none, is not modelled.
- Form.EstimationOutcome: `amountFromWei` is exact division by 10^18 over the reals. BigNumber rounding is not modelled. Division by a zero DAI price is the `NotFinite` amount.
- The error caught by `catchError` is a string. The `console.warn` call is left out.
- ConnectWallet.GetConnector: the connector classes are not modelled, only their configuration. The magic-link api key comes from `getMagicLinkKey`, and magicLink.ts is not part of this model, so the key is recorded as the network it was chosen for.
- ConnectWallet.GetInjectedWalletKind: a `null` current provider is not modelled. It passes the source's `typeof ... === 'undefined'` test and then throws a TypeError on the isAlphaWallet check; `Option<Provider>` has only an absent or a present provider.
- ConnectWallet.GetConnector: the browser alert is left out. An injected provider whose chain id is not a number, or that cannot report one, is `None`. Both fail, as in the source.
- Network ids are integers. The source keys them by their decimal strings, and JavaScript converts a numeric index to that string.
- ConnectWallet.AutoConnectStep: a stored text that does not parse is `Unparsable`. A parsed record whose kind is not one of the seven kinds is not modelled. An empty stored string counts as no entry, as it is falsy in the source.
- ConnectWallet.AutoConnect.OnEmission: exceptions thrown by the storage calls or by the wallet context's `connect` are not modelled. When the fallback connector fails a second time, the promise rejects; here that is "no call".
- The `ConnectWallet` component's screen choice: the ledger and trezor account selection, the read-only "connecting" message, the error alerts, the cancel handlers and the redirect to the dashboard. These are JSX rendering and routing.
- `WithConnection`: it depends on `Web3.utils.isAddress`, a foreign call, and on React effects.
- The one-line stream mappers `toEtherBalanceChange`, `toGasPriceChange`, `toEtherPriceUSDChange`, `toAllowanceChange$` and `toAccountChange` (helpers/form.ts:150-205). Each only wraps every value in a tagged record.
- Storybook fixtures (components/account/TransactionManager.stories.tsx), the number-mask input (helpers/input.tsx), and the contract addresses of blockchain/config.ts. None of them holds decision logic.
