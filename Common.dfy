/**
 * Shared vocabulary of the wallet dApp model: optional values, what JavaScript
 * code throws, the outcome of a call into code outside the model, and the log
 * of user-visible and external effects (toasts, alerts, RPC and provider calls).
 */
module Common {

  datatype Option<T> = None | Some(value: T)

  /** The class of an `Error` object, as far as `instanceof` tests in the source tell them apart. */
  datatype ErrorClass = PlainError | SolanaError | WalletError | TransactionError

  /** A value thrown by a JavaScript call: an `Error` (of some class, with a message) or anything else. */
  datatype Thrown = Error(cls: ErrorClass, message: string) | NonError

  /** The outcome of an awaited external call: it returned a value or it threw. */
  datatype Outcome<T> = Returned(value: T) | Threw(error: Thrown)

  /** An account identifier, kept as its base58 text; its parsing is not modelled. */
  datatype PublicKey = PublicKey(base58: string)

  /** A snapshot of the injected wallet provider (`window.solana`) when it is discovered. */
  datatype WalletAdapter = WalletAdapter(id: nat, isConnected: bool, publicKey: Option<PublicKey>)

  datatype ToastLevel = Success | Warning | Failure

  /** A call into the wallet provider, the RPC endpoint or the shared session. */
  datatype ExternalCall =
    | ProviderConnect
    | ProviderDisconnect
    | GetBalance(key: PublicKey)
    | GetLatestBlockhash
    | SignTransaction
    | SendRawTransaction
    | ConfirmTransaction(signature: string)
    | RequestAirdrop(key: PublicKey, lamports: int)
    | RefreshSessionBalance

  /** One observable effect of a handler, in the order it happens. */
  datatype Effect =
    | Toast(level: ToastLevel, title: string, description: string)
    | ToastLink(title: string, url: string)
    | Alert(text: string)
    | Call(call: ExternalCall)

  /** `error instanceof Error ? error.message : fallback`, the idiom the source uses to describe a failure. */
  function ErrorMessageOr(e: Thrown, fallback: string): (m: string)
    ensures e.Error? ==> m == e.message
    ensures e.NonError? ==> m == fallback
  {
    match e
    case Error(_, message) => message
    case NonError => fallback
  }

  predicate HasPrefix(s: string, prefix: string)
  {
    |prefix| <= |s| && s[..|prefix|] == prefix
  }

  /** A concatenation starts with its left part and continues with its right part. */
  lemma ConcatParts(a: string, b: string)
    ensures HasPrefix(a + b, a) && (a + b)[|a|..] == b
  {
  }
}
