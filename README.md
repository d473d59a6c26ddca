# Solana dApp template: wallet session, transfer form and faucet

This project models the logic core of the Solana dApp template, a Next.js front end
over `@solana/web3.js` and the injected Phantom wallet provider. It proves properties
of that model in Dafny. There is one module per source file:

- `SolanaLib` (`src/lib/solana.ts`) covers these helpers:
  - the network table and the connection factory;
  - explorer links, with a parser that reads a link back;
  - address shortening;
  - the `WalletError` and `TransactionError` message prefixes;
  - `createTransferTransaction`, which checks the recipient, then the amount, then fetches a blockhash and sets the fee payer on a fresh `Transaction` object.
- `UseWalletUtils` (`src/hooks/useWalletUtils.ts`) models the hook as a class. It owns `loading` and `balance`, and has `refreshBalance`, `connect` and `disconnect`.
- `WalletContext` (`src/contexts/WalletContext.tsx`) models the `WalletProvider` session as a class. Its fields are `wallet`, `publicKey`, `connected`, `connecting`, `network` and `connection`. It has the user's connect and disconnect, the three provider event handlers, provider adoption, the network-to-connection effect and the balance effect.
- `TransferSol` (`src/components/TransferSol.tsx`) covers the transfer form:
  - `String.prototype.trim`;
  - both validators, which record their error text;
  - the try block of `handleTransfer`, as a function and as the step-by-step method proved against it;
  - the form class, whose `HandleTransfer` keeps or clears the fields and, after any attempt, ends with `loading` false.
- `Faucet` (`src/components/Faucet.tsx`) covers the airdrop handler:
  - `String.prototype.includes`, proved against an occurrence predicate;
  - the classification of failure messages;
  - the effects of one click as a function, and the panel class whose handler produces them.
- `Common` holds shared types:
  - optional values;
  - what JavaScript code throws: an `Error` of some class with a message, or any other value;
  - the outcome of an external call (returned or threw);
  - the effect log.

Every call into web3.js, the RPC node or the wallet provider is a parameter. Most are outcome parameters (`Outcome<T>`: `Returned(v)` or `Threw(e)`): `parseInputToLamports`, building the transfer instruction (`SystemProgram.transfer` with `Transaction.add`), `getBalance`, `getLatestBlockhash`, `signTransaction`, `serialize`, `sendRawTransaction`, `confirmTransaction`, `requestAirdrop`, and the provider's `connect` and `disconnect`. `new PublicKey` is an `Option<PublicKey>` (None when it throws), and `parseFloat` is a `ParsedFloat` (`NaN`, a finite value, or an infinity). Toasts, alerts and external calls are appended to an `effects` log in order. This lets contracts say "no network call was made" or "the failure toast reads X". The balance is kept in lamports.

In these places the code does something other than what a wallet session is usually expected to do; the model follows the code:
- A failed provider disconnect leaves the key, the `connected` flag and the balance as they were.
- The user's connect never sets or clears `connected`, even when it fails; only the provider's `connect` and `accountChanged` events and the adoption of an already-connected provider set it.
- The airdrop has no mainnet guard and no cooldown.
- `validateAmount` accepts a `parseFloat` result of `Infinity`, because it only tests `NaN` and `<= 0`.

## Model

| member | source | states |
|---|---|---|
| Common.ErrorMessageOr | src/hooks/useWalletUtils.ts:44-45 | an `Error`'s message, any other thrown value the fallback text |
| SolanaLib.GetConnection | src/lib/solana.ts:43-48 | the connection's endpoint is the table entry of exactly the requested network, at "confirmed" commitment |
| SolanaLib.RpcEndpoint | src/lib/solana.ts:32-36 | the `SOLANA_NETWORKS` table; `EndpointsDistinct` and `GetConnection` state its properties |
| SolanaLib.EndpointsDistinct | src/lib/solana.ts:32-36 | the three networks have three different RPC URLs |
| SolanaLib.DefaultConnectionIsDevnet | src/lib/solana.ts:41-48 | a call without arguments connects to `https://api.devnet.solana.com` at "confirmed" |
| SolanaLib.ClusterParam | src/lib/solana.ts:81 | the cluster suffix is empty exactly for mainnet, else `?cluster=` followed by the network's name |
| SolanaLib.GetExplorerUrl | src/lib/solana.ts:75-84 | the link is the explorer base, `/`, the kind, `/`, then exactly the signature followed by the cluster suffix |
| SolanaLib.IndexOfChar | src/lib/solana.ts:80-83 | the position of the first `?` in a link tail, where the cluster suffix begins |
| SolanaLib.ParseTailRoundTrip | src/lib/solana.ts:83 | a tail built from a `?`-free signature and a network parses back to both |
| SolanaLib.ExplorerUrlRoundTrip | src/lib/solana.ts:75-84 | every link to a `?`-free signature reads back as the signature, network and kind it was built from |
| SolanaLib.ExplorerUrlInjective | src/lib/solana.ts:75-84 | two links to `?`-free signatures coincide only when signature, network and kind all agree |
| SolanaLib.ExplorerUrlAmbiguousWithQuery | src/lib/solana.ts:81-83 | without that condition a mainnet link to `sig?cluster=devnet` equals the devnet link to `sig` |
| SolanaLib.ExplorerUrlDefaults | src/lib/solana.ts:77-78 | the one-argument call ends in `/tx/<sig>?cluster=devnet` |
| SolanaLib.FormatWalletAddress | src/lib/solana.ts:69-72 | under 10 characters the address is returned unchanged; otherwise 11 characters: its first four, `...`, its last four |
| SolanaLib.FormatWalletAddressIdempotent | src/lib/solana.ts:69-72 | shortening a shortened address changes nothing |
| SolanaLib.NewWalletError | src/lib/solana.ts:17-22 | a `WalletError` whose message is `Wallet Error: ` followed by the given message |
| SolanaLib.NewTransactionError | src/lib/solana.ts:24-29 | a `TransactionError` whose message is `Transaction Error: ` followed by the given message |
| SolanaLib.ErrorMessagesDistinct | src/lib/solana.ts:17-29 | no wallet error message reads as a transaction error message |
| SolanaLib.WrapAsTransactionError | src/lib/solana.ts:127-134 | a `TransactionError` passes unchanged; anything else becomes a `TransactionError` carrying its message or "Failed to create transaction" |
| SolanaLib.TransferTransaction | src/lib/solana.ts:92-135 | what the builder resolves to: recipient check, amount check, instruction build, blockhash fetch, each failure wrapped; the lemmas below state its properties |
| SolanaLib.TransferTransactionChecksRecipientFirst | src/lib/solana.ts:101-105 | an unparseable recipient fails with "Transaction Error: Invalid recipient address", whatever the amount and the blockhash |
| SolanaLib.TransferTransactionChecksAmountSecond | src/lib/solana.ts:108-110 | a parseable recipient with `lamports <= 0` fails with "Transaction Error: Amount must be greater than 0" |
| SolanaLib.TransferTransactionChecksBeforeFetch | src/lib/solana.ts:101-122 | when either check fails or the instruction does not build, the result does not depend on the blockhash fetch |
| SolanaLib.TransferTransactionFailsAsTransactionError | src/lib/solana.ts:98-134 | every failure is a `TransactionError` with the prefix, given that what the instruction build or the fetch threw was well formed |
| SolanaLib.TransferTransactionWrapsInstructionError | src/lib/solana.ts:113-119 | a failing instruction build (for example an amount web3.js cannot encode) surfaces as `Transaction Error: ` followed by its message, with no blockhash fetch |
| SolanaLib.TransferTransactionWrapsFetchError | src/lib/solana.ts:122-133 | a failed blockhash fetch surfaces as `Transaction Error: ` followed by its own message |
| SolanaLib.TransferTransactionSuccess | src/lib/solana.ts:113-126 | success holds exactly when both checks pass, the instruction builds and the fetch returns; the one instruction moves the lamports from sender to recipient, the fee payer is the sender, and the recent blockhash is the fetched one |
| SolanaLib.Transaction.constructor | src/lib/solana.ts:113 | `new Transaction()` has no instructions, no blockhash and no fee payer |
| SolanaLib.Transaction.Add | src/lib/solana.ts:113-119 | appends the instruction; blockhash and fee payer unchanged |
| SolanaLib.CreateTransferTransaction | src/lib/solana.ts:92-135 | agrees with `TransferTransaction` on a fresh object, and fetches the blockhash exactly when both checks passed and the instruction builds |
| UseWalletUtils.WalletUtils.constructor | src/hooks/useWalletUtils.ts:6-7 | `loading` starts false and the balance unknown |
| UseWalletUtils.WalletUtils.RefreshBalance | src/hooks/useWalletUtils.ts:10-28 | without a key nothing changes; otherwise one `getBalance` call, the balance stored on success and kept on failure with an error toast, `loading` false afterwards |
| UseWalletUtils.WalletUtils.Connect | src/hooks/useWalletUtils.ts:31-53 | without a wallet, a "Wallet not found" toast, no provider call, no throw; a failing provider connect is toasted and rethrown |
| UseWalletUtils.WalletUtils.Disconnect | src/hooks/useWalletUtils.ts:56-71 | without a wallet, a no-op; a failing provider disconnect is toasted and rethrown |
| WalletContext.WalletSession.constructor | src/contexts/WalletContext.tsx:24-39 | no wallet and no key, not connected, devnet, and the devnet connection |
| WalletContext.WalletSession.SetNetwork | src/contexts/WalletContext.tsx:41-44 | the connection becomes `getConnection` of the new network; nothing else changes |
| WalletContext.WalletSession.CheckForPhantom | src/contexts/WalletContext.tsx:48-63 | adopts the provider and takes over its key when it reports being connected; the listeners close over the key held before adoption |
| WalletContext.WalletSession.OnProviderConnect | src/contexts/WalletContext.tsx:66-70 | key set, connected, not connecting |
| WalletContext.WalletSession.OnProviderDisconnect | src/contexts/WalletContext.tsx:72-76 | key, connected flag and balance all cleared |
| WalletContext.WalletSession.OnAccountChanged | src/contexts/WalletContext.tsx:78-85 | the corrected listener of the "## Findings" row: key adopted, connected exactly when there is one, balance cleared, and a refresh over the new key only when there is one (the source's listener refreshes over the key of the first render instead) |
| WalletContext.WalletSession.OnAccountChangedAsWritten | src/contexts/WalletContext.tsx:78-85 | the same state update, with the refresh running over the key the listener closed over |
| WalletContext.WalletSession.RefreshWalletBalance | src/contexts/WalletContext.tsx:111-113 | refreshes over the session's current key |
| WalletContext.WalletSession.BalanceEffect | src/contexts/WalletContext.tsx:104-108 | refreshes exactly when connected with a key |
| WalletContext.WalletSession.Connect | src/contexts/WalletContext.tsx:116-125 | a no-op when connected; otherwise `connecting` ends false, the hook's failure is rethrown, and `connected` and the key never change |
| WalletContext.WalletSession.Disconnect | src/contexts/WalletContext.tsx:128-139 | a no-op without a wallet or when not connected; clears key, flag and balance only when the provider call succeeds; keeps `connected` in step with the key |
| WalletContext.StaleAccountRefreshWitness | src/contexts/WalletContext.tsx:78-85 | after mount, the registered listener handles an account switch without fetching any balance: the hook's log stays empty |
| WalletContext.AccountRefreshWitness | src/contexts/WalletContext.tsx:78-85 | the corrected listener fetches and stores the new account's balance |
| TransferSol.TrimStart | src/components/TransferSol.tsx:37 | the result is the suffix of the input after its leading white space, starting with a visible character |
| TransferSol.TrimEnd | src/components/TransferSol.tsx:37 | the result is the prefix of the input before its trailing white space, ending with a visible character |
| TransferSol.Trim | src/components/TransferSol.tsx:37 | `value.trim()`, both ends; `TrimEmptyIffBlank` states when it is empty |
| TransferSol.TrimEmptyIffBlank | src/components/TransferSol.tsx:37 | `!value.trim()` holds exactly for white-space-only input |
| TransferSol.RecipientError | src/components/TransferSol.tsx:36-54 | blank input: "Recipient address is required"; otherwise a length outside 32 to 44: "Invalid Solana address format"; valid exactly when neither holds |
| TransferSol.RecipientLengthIsUntrimmed | src/components/TransferSol.tsx:44 | the length bound is applied to the untrimmed text: 31 spaces and one character pass |
| TransferSol.AmountError | src/components/TransferSol.tsx:57-76 | the empty text is "required" before parsing, `NaN` is "must be a number", a non-positive value is "must be greater than 0", and the amount is valid exactly when non-empty and positive |
| TransferSol.TransferFailureMessage | src/components/TransferSol.tsx:144-150 | the failure toast shows an `Error`'s message, else "Failed to complete transfer" |
| TransferSol.SubmitTransfer | src/components/TransferSol.tsx:97-139 | the try block's result and its external calls in order; the lemmas below state its properties and `RunTransfer` is proved against it |
| TransferSol.SubmitTransferSuccess | src/components/TransferSol.tsx:97-139 | success holds exactly when every step succeeds; the signature is the sent one, after the four network calls in order |
| TransferSol.SubmitTransferRejectsBeforeNetwork | src/components/TransferSol.tsx:99-107 | a bad recipient or a zero lamport amount fails with no network call and with the builder's message |
| TransferSol.SubmitTransferInstructionFailure | src/components/TransferSol.tsx:102-107 | an instruction that cannot be built fails with no network call and shows `Transaction Error: ` followed by its message |
| TransferSol.SerializeFailureSkipsSend | src/components/TransferSol.tsx:110-115 | a signed transaction that fails to serialize is never sent: the calls stop after signing |
| TransferSol.SigningRejectionMessage | src/components/TransferSol.tsx:109-150 | a signing rejection that is not an `Error` stops after two calls with the generic text |
| TransferSol.TransferForm.constructor | src/components/TransferSol.tsx:27-33 | both fields, both error texts empty, `loading` false |
| TransferSol.TransferForm.ValidateRecipient | src/components/TransferSol.tsx:36-54 | records `RecipientError` and returns whether it is empty |
| TransferSol.TransferForm.ValidateAmount | src/components/TransferSol.tsx:57-76 | records `AmountError` and returns whether it is empty |
| TransferSol.TransferForm.HandleTransfer | src/components/TransferSol.tsx:79-158 | not ready: a warning and nothing else; both validators always run; invalid input stops before `loading` or any call; valid input submits |
| TransferSol.TransferForm.RunTransfer | src/components/TransferSol.tsx:95-157 | runs the try block step by step with the result and calls of `SubmitTransfer`; success clears both fields, links the signature on the selected network and asks for a balance refresh; failure keeps the fields and toasts the message; `loading` ends false |
| Faucet.Contains | src/components/Faucet.tsx:64-65 | `includes`, by sliding along the text; `ContainsIffOccurs` states what it finds |
| Faucet.ContainsIffOccurs | src/components/Faucet.tsx:64-65 | the `includes` model holds exactly when the text occurs at some position |
| Faucet.NotContainsMissingChar | src/components/Faucet.tsx:64-65 | a text lacking one of the searched text's characters does not contain it |
| Faucet.FaucetErrorMessage | src/components/Faucet.tsx:59-71 | "429" or "rate limit" in an `Error`'s message gives the rate-limit text, any other `Error` its message, and a non-`Error` "Failed to request SOL from faucet" |
| Faucet.StatusCode429IsRateLimit | src/components/Faucet.tsx:64-67 | a message with "429" in the middle is classified as rate limiting |
| Faucet.RateLimitTestIsCaseSensitive | src/components/Faucet.tsx:65-69 | "RATE LIMIT" is passed on verbatim |
| Faucet.NotConnectedMessageVerbatim | src/components/Faucet.tsx:30-70 | "Wallet is not Connected" reaches the toast unchanged |
| Faucet.AirdropEffects | src/components/Faucet.tsx:28-79 | everything one click shows and calls; the lemmas below state its properties and `GetAirdropOnClick` is proved against it |
| Faucet.AirdropWithoutKey | src/components/Faucet.tsx:30-75 | with no key, no network call; only the alert and the "Wallet is not Connected" toast |
| Faucet.AirdropRequestsOneSol | src/components/Faucet.tsx:33-36 | with a key, the first two calls are the blockhash fetch and an airdrop of exactly 1 000 000 000 lamports to that key |
| Faucet.AirdropLinksDevnet | src/components/Faucet.tsx:25-45 | a confirmed airdrop is linked with `?cluster=devnet` |
| Faucet.AirdropFailureAlwaysAlertsRateLimit | src/components/Faucet.tsx:55-75 | every failure ends with the "You are Rate limited for Airdrop" alert and then a toast |
| Faucet.FaucetPanel.constructor | src/components/Faucet.tsx:21 | `loading` starts false |
| Faucet.FaucetPanel.GetAirdropOnClick | src/components/Faucet.tsx:28-79 | the effects are those of `AirdropEffects`, and `loading` ends false; nothing ever sets it true |

## Left out

- `parseInputToLamports` and `formatSolAmount` are left out. They use IEEE floats, `parseFloat` prefix parsing and `toLocaleString`. The lamport conversion is an outcome parameter, and `parseFloat` in the amount validator is an abstract `ParsedFloat` parameter.
- `balance / LAMPORTS_PER_SOL` is left out: the balance is kept in lamports.
- web3.js internals are parameters: base58 `PublicKey` parsing, building the transfer instruction, `serialize`, and the RPC calls. The recipient is parsed once inside the builder. The validators do not parse it, so the model relates the recipient's text to its parse only through the caller's choice of parameters.
- `confirmTransaction`'s `value.err` is inspected by neither the transfer nor the faucet. For the transfer, the model matches that: any confirm result that does not throw counts as success. In the faucet, `if (sigResult)` tests a response object, which is always truthy. The model's `confirm: Outcome<bool>` also admits `Returned(false)`, which the source cannot produce; on that input the model shows no link.
- In the faucet, `Promise.all` over the blockhash fetch and the airdrop request is one combined outcome. Which rejection wins is timing-dependent. Both calls are logged as issued.
- Provider discovery through `window.solana` is left out, as are listener registration and teardown (src/contexts/WalletContext.tsx:94-100) and React's scheduling of renders and effects. So are interleavings between provider events and in-flight refreshes. Each handler runs to completion over the state it sees.
- The catch at src/contexts/WalletContext.tsx:86-88 is unreachable in the model, because adoption cannot throw there.
- Toast and link markup, `console` output, and the presentational files are left out: `src/app/page.tsx`, `WalletButton`, `NetworkSelector`, `ThemeSwitcher` and `src/types/wallet.ts`.
- `checkForWallets` is left out: it is an environment probe.
- The `SolanaError` base class appears only as an error class. Nothing in the core throws it directly.
- The catch in `validateRecipient` (src/components/TransferSol.tsx:50-53) is left out: nothing in its try block can throw.
- Lengths are counted in characters, not UTF-16 code units. The two agree on base58 addresses, which are ASCII, but not on everything a user can type into the recipient field. For example, 16 characters outside the Basic Multilingual Plane have a JavaScript `length` of 32 and pass `validateRecipient`'s length check, while `RecipientError` counts 16 and rejects them.
- The faucet uses `@solana/wallet-adapter-react`'s key and connection, not the session in `WalletContext`. So its key is a parameter of the click.
- SolanaLib.TransferTransaction: the lamport amount is an integer, so the `Infinity` that `parseInputToLamports` returns for amount text such as "1e400" (which `validateAmount` accepts) cannot be represented. Such an amount is covered only through the instruction-build outcome, where web3.js's conversion of the amount throws before any blockhash fetch. The caller must choose that outcome to match.
- WalletContext.WalletSession.OnAccountChangedAsWritten: with no captured key or no new key its contract states the whole hook state (balance cleared, `loading` and the log unchanged). It does not describe a refresh over a captured key that is present, a case registration at mount never creates.

## Findings

| source | as written | input that shows it | evidently intended | confidence | as-written member | corrected member |
|---|---|---|---|---|---|---|
| src/contexts/WalletContext.tsx:78-85 | the `accountChanged` listener is registered once at mount, so its `refreshWalletBalance()` closes over the first render's `publicKey`, which is null; the refresh returns at once without fetching | a provider is adopted at mount, then `accountChanged` fires with a new key | fetch the new account's balance, as the call's guard `if (publicKey)` suggests | not executed; the balance effect at lines 104-108 re-fetches after the next render, which hides the dead call | WalletContext.StaleAccountRefreshWitness | WalletContext.AccountRefreshWitness |
