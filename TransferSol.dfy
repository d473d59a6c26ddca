/**
 * The transfer form of `src/components/TransferSol.tsx`: its two validators,
 * which record an error text as they decide, and `handleTransfer`, which checks
 * the session, validates, then builds, signs, sends and confirms the transfer,
 * clearing the form on success and keeping it on failure. What the session
 * holds and every external call's outcome are parameters.
 */
module TransferSol {
  import opened Common
  import opened SolanaLib

  // ---------------------------------------------------------------------------
  // `String.prototype.trim`

  /** White space and line terminators, the characters `trim` removes. */
  predicate IsJsWhitespace(c: char)
  {
    || c == '\t' || c == '\n' || c == '\U{000B}' || c == '\U{000C}' || c == '\r' || c == ' '
    || c == '\U{00A0}' || c == '\U{1680}' || ('\U{2000}' <= c <= '\U{200A}')
    || c == '\U{2028}' || c == '\U{2029}' || c == '\U{202F}' || c == '\U{205F}' || c == '\U{3000}'
    || c == '\U{FEFF}'
  }

  /** Every character is white space. */
  predicate IsBlank(s: string)
  {
    forall i :: 0 <= i < |s| ==> IsJsWhitespace(s[i])
  }

  /** Drops leading white space: what remains is a suffix of `s` that starts with a visible character. */
  function TrimStart(s: string): (r: string)
    ensures |r| <= |s| && r == s[|s| - |r|..]
    ensures IsBlank(s[..|s| - |r|])
    ensures r == [] || !IsJsWhitespace(r[0])
  {
    if |s| > 0 && IsJsWhitespace(s[0]) then
      var r := TrimStart(s[1..]);
      assert s[..|s| - |r|] == [s[0]] + s[1..][..|s| - 1 - |r|];
      r
    else s
  }

  /** Drops trailing white space: what remains is a prefix of `s` that ends with a visible character. */
  function TrimEnd(s: string): (r: string)
    ensures |r| <= |s| && r == s[..|r|]
    ensures IsBlank(s[|r|..])
    ensures r == [] || !IsJsWhitespace(r[|r| - 1])
  {
    if |s| > 0 && IsJsWhitespace(s[|s| - 1]) then
      var r := TrimEnd(s[..|s| - 1]);
      assert s[|r|..] == s[..|s| - 1][|r|..] + [s[|s| - 1]];
      r
    else s
  }

  function Trim(s: string): string
  {
    TrimEnd(TrimStart(s))
  }

  /** `!value.trim()` holds exactly for the strings made of white space only. */
  lemma TrimEmptyIffBlank(s: string)
    ensures Trim(s) == [] <==> IsBlank(s)
  {
    var t := TrimStart(s);
    assert t != [] ==> t[0] == s[|s| - |t|];
    if Trim(s) == [] {
      assert IsBlank(t[0..]);
      assert s == s[..|s| - |t|];
    }
  }

  // ---------------------------------------------------------------------------
  // The validators

  const RecipientRequired: string := "Recipient address is required"
  const RecipientBadFormat: string := "Invalid Solana address format"

  /**
   * The text `validateRecipient(value)` leaves in `recipientError`; "" means valid.
   * Blankness is judged after trimming, the 32 to 44 length bound on `value` as given.
   */
  function RecipientError(value: string): (msg: string)
    ensures IsBlank(value) ==> msg == RecipientRequired
    ensures !IsBlank(value) && (|value| < 32 || |value| > 44) ==> msg == RecipientBadFormat
    ensures msg == "" <==> !IsBlank(value) && 32 <= |value| <= 44
  {
    TrimEmptyIffBlank(value);
    if Trim(value) == "" then RecipientRequired
    else if |value| < 32 || |value| > 44 then RecipientBadFormat
    else ""
  }

  /** The length bound applies to the untrimmed text: one visible character padded to 32 passes. */
  lemma RecipientLengthIsUntrimmed()
    ensures var padded := seq(31, _ => ' ') + "x";
      RecipientError(padded) == "" && |Trim(padded)| == 1
  {
    var padded := seq(31, _ => ' ') + "x";
    assert !IsJsWhitespace(padded[31]);
    var t := TrimStart(padded);
    assert t != [] ==> t[0] == padded[|padded| - |t|];
    assert IsBlank(padded[..31]);
  }

  /** What `parseFloat` made of the amount text. */
  datatype ParsedFloat = NaN | Finite(value: real) | PosInfinity | NegInfinity

  predicate IsPositive(p: ParsedFloat)
  {
    p.PosInfinity? || (p.Finite? && p.value > 0.0)
  }

  /** The text `validateAmount(value)` leaves in `amountError`, given `parseFloat(value)`; "" means valid. */
  function AmountError(value: string, parsed: ParsedFloat): (msg: string)
    ensures value == "" ==> msg == "Amount is required"
    ensures value != "" && parsed.NaN? ==> msg == "Amount must be a number"
    ensures value != "" && !parsed.NaN? && !IsPositive(parsed) ==> msg == "Amount must be greater than 0"
    ensures msg == "" <==> value != "" && IsPositive(parsed)
  {
    if value == "" then "Amount is required"
    else if parsed.NaN? then "Amount must be a number"
    else if !IsPositive(parsed) then "Amount must be greater than 0"
    else ""
  }

  // ---------------------------------------------------------------------------
  // Submission

  /** The outcomes of everything `handleTransfer` asks of code outside the model. */
  datatype TransferEnv = TransferEnv(
    parsedAmount: ParsedFloat,           // parseFloat(amount), as validateAmount sees it
    lamports: Outcome<int>,              // parseInputToLamports(amount)
    parsedRecipient: Option<PublicKey>,  // new PublicKey(recipient), inside the builder
    instruction: Outcome<()>,            // SystemProgram.transfer and Transaction.add, inside the builder
    latestBlockhash: Outcome<string>,    // connection.getLatestBlockhash
    sign: Outcome<()>,                   // wallet.signTransaction
    serialize: Outcome<()>,              // signedTransaction.serialize
    send: Outcome<string>,               // connection.sendRawTransaction: the signature
    confirm: Outcome<()>)                // connection.confirmTransaction

  /** The result of the try block, and the external calls it made, in order. */
  datatype Attempt = Attempt(result: Outcome<string>, calls: seq<ExternalCall>)

  /** The try block of `handleTransfer`: convert, build, sign, serialize, send, confirm; the first throw ends it. */
  function SubmitTransfer(from: PublicKey, env: TransferEnv): Attempt
  {
    match env.lamports
    case Threw(e) => Attempt(Threw(e), [])
    case Returned(lamports) =>
      var fetch := if FetchesBlockhash(env.parsedRecipient, lamports, env.instruction) then [GetLatestBlockhash] else [];
      match TransferTransaction(from, env.parsedRecipient, lamports, env.instruction, env.latestBlockhash)
      case Threw(e) => Attempt(Threw(e), fetch)
      case Returned(_) =>
        match env.sign
        case Threw(e) => Attempt(Threw(e), fetch + [SignTransaction])
        case Returned(_) =>
          if env.serialize.Threw? then Attempt(Threw(env.serialize.error), fetch + [SignTransaction])
          else match env.send
          case Threw(e) => Attempt(Threw(e), fetch + [SignTransaction, SendRawTransaction])
          case Returned(signature) =>
            var calls := fetch + [SignTransaction, SendRawTransaction, ConfirmTransaction(signature)];
            match env.confirm
            case Threw(e) => Attempt(Threw(e), calls)
            case Returned(_) => Attempt(Returned(signature), calls)
  }

  /** The catch block's description of a failure. */
  function TransferFailureMessage(e: Thrown): (m: string)
    ensures m == ErrorMessageOr(e, "Failed to complete transfer")
  {
    if e.Error? && e.cls == TransactionError then e.message
    else if e.Error? then e.message
    else "Failed to complete transfer"
  }

  /**
   * A transfer succeeds exactly when the amount converts to a positive number of
   * lamports, the recipient parses, the instruction builds, the signed transaction
   * serializes and all four network steps succeed; it then made the four calls in order.
   */
  lemma SubmitTransferSuccess(from: PublicKey, env: TransferEnv)
    ensures var a := SubmitTransfer(from, env);
      a.result.Returned? <==>
        && env.lamports.Returned? && env.lamports.value > 0 && env.parsedRecipient.Some?
        && env.instruction.Returned? && env.latestBlockhash.Returned? && env.sign.Returned?
        && env.serialize.Returned? && env.send.Returned? && env.confirm.Returned?
    ensures var a := SubmitTransfer(from, env);
      a.result.Returned? ==>
        a.result.value == env.send.value &&
        a.calls == [GetLatestBlockhash, SignTransaction, SendRawTransaction, ConfirmTransaction(env.send.value)]
  {
  }

  /**
   * A recipient the builder cannot parse, or an amount that floors to no lamports,
   * fails before any network call, with the builder's `TransactionError` text.
   */
  lemma SubmitTransferRejectsBeforeNetwork(from: PublicKey, env: TransferEnv)
    requires env.lamports.Returned?
    requires env.parsedRecipient.None? || env.lamports.value <= 0
    ensures SubmitTransfer(from, env).calls == []
    ensures env.parsedRecipient.None? ==>
      TransferFailureMessage(SubmitTransfer(from, env).result.error) == "Transaction Error: Invalid recipient address"
    ensures env.parsedRecipient.Some? ==>
      TransferFailureMessage(SubmitTransfer(from, env).result.error) == "Transaction Error: Amount must be greater than 0"
  {
    if env.parsedRecipient.None? {
      TransferTransactionChecksRecipientFirst(from, env.lamports.value, env.instruction, env.latestBlockhash);
    } else {
      TransferTransactionChecksAmountSecond(from, env.parsedRecipient.value, env.lamports.value, env.instruction,
                                            env.latestBlockhash);
    }
  }

  /**
   * An instruction that cannot be built (an amount too large to encode, say) fails
   * before any network call, its message behind the `TransactionError` prefix.
   */
  lemma SubmitTransferInstructionFailure(from: PublicKey, env: TransferEnv, message: string)
    requires env.lamports.Returned? && env.lamports.value > 0 && env.parsedRecipient.Some?
    requires env.instruction == Threw(Error(PlainError, message))
    ensures SubmitTransfer(from, env).calls == []
    ensures TransferFailureMessage(SubmitTransfer(from, env).result.error) == "Transaction Error: " + message
  {
  }

  /** A signed transaction that fails to serialize is never sent. */
  lemma SerializeFailureSkipsSend(from: PublicKey, env: TransferEnv)
    requires env.lamports.Returned? && env.lamports.value > 0 && env.parsedRecipient.Some?
    requires env.instruction.Returned? && env.latestBlockhash.Returned? && env.sign.Returned?
    requires env.serialize.Threw?
    ensures SubmitTransfer(from, env) == Attempt(Threw(env.serialize.error), [GetLatestBlockhash, SignTransaction])
  {
  }

  /** A wallet that rejects signing with something other than an `Error` gets the generic text. */
  lemma SigningRejectionMessage(from: PublicKey, env: TransferEnv)
    requires env.lamports.Returned? && env.lamports.value > 0 && env.parsedRecipient.Some?
    requires env.instruction.Returned? && env.latestBlockhash.Returned? && env.sign == Threw(NonError)
    ensures SubmitTransfer(from, env).calls == [GetLatestBlockhash, SignTransaction]
    ensures TransferFailureMessage(SubmitTransfer(from, env).result.error) == "Failed to complete transfer"
  {
  }

  // ---------------------------------------------------------------------------
  // The form

  class TransferForm {
    var recipient: string
    var amount: string
    var loading: bool
    var recipientError: string
    var amountError: string
    /** Notifications shown and external calls made, oldest first. */
    var effects: seq<Effect>

    constructor ()
      ensures recipient == "" && amount == "" && !loading && recipientError == "" && amountError == ""
      ensures effects == []
    {
      recipient := "";
      amount := "";
      loading := false;
      recipientError := "";
      amountError := "";
      effects := [];
    }

    /** `validateRecipient(value)`: records the error text and says whether it is empty. */
    method ValidateRecipient(value: string) returns (ok: bool)
      modifies this`recipientError
      ensures recipientError == RecipientError(value)
      ensures ok <==> !IsBlank(value) && 32 <= |value| <= 44
    {
      TrimEmptyIffBlank(value);
      if Trim(value) == "" {
        recipientError := RecipientRequired;
        return false;
      }
      if |value| < 32 || |value| > 44 {
        recipientError := RecipientBadFormat;
        return false;
      }
      recipientError := "";
      return true;
    }

    /** `validateAmount(value)`, given `parseFloat(value)`: records the error text and says whether it is empty. */
    method ValidateAmount(value: string, parsed: ParsedFloat) returns (ok: bool)
      modifies this`amountError
      ensures amountError == AmountError(value, parsed)
      ensures ok <==> value != "" && IsPositive(parsed)
    {
      if value == "" {
        amountError := "Amount is required";
        return false;
      }
      if parsed.NaN? {
        amountError := "Amount must be a number";
        return false;
      }
      if !IsPositive(parsed) {
        amountError := "Amount must be greater than 0";
        return false;
      }
      amountError := "";
      return true;
    }

    /** Whether both fields pass their validators. */
    predicate InputsValid(env: TransferEnv)
      reads this
    {
      RecipientError(recipient) == "" && AmountError(amount, env.parsedAmount) == ""
    }

    /**
     * `handleTransfer`, over the session's `connected`, `publicKey`, `wallet` and `network`.
     * Not ready: a warning and nothing else. Otherwise both validators run; invalid input
     * stops there. Valid input goes through `SubmitTransfer`: success clears the form,
     * links the signature on the explorer and asks for a balance refresh; failure keeps
     * the form and reports the failure. `loading` ends false after any attempt.
     */
    method HandleTransfer(connected: bool, publicKey: Option<PublicKey>, wallet: Option<WalletAdapter>,
                          network: Network, env: TransferEnv)
      modifies this
      ensures !(connected && publicKey.Some? && wallet.Some?) ==>
        && recipient == old(recipient) && amount == old(amount) && loading == old(loading)
        && recipientError == old(recipientError) && amountError == old(amountError)
        && effects == old(effects) + [Toast(Warning, "Not Connected", "Please connect your wallet first")]
      ensures connected && publicKey.Some? && wallet.Some? ==>
        recipientError == RecipientError(old(recipient)) && amountError == AmountError(old(amount), env.parsedAmount)
      ensures connected && publicKey.Some? && wallet.Some? && !old(InputsValid(env)) ==>
        recipient == old(recipient) && amount == old(amount) && loading == old(loading) && effects == old(effects)
      ensures connected && publicKey.Some? && wallet.Some? && old(InputsValid(env)) ==>
        Submitted(old(recipient), old(amount), old(effects), SubmitTransfer(publicKey.value, env), network)
    {
      if !connected || publicKey.None? || wallet.None? {
        effects := effects + [Toast(Warning, "Not Connected", "Please connect your wallet first")];
        return;
      }
      var isRecipientValid := ValidateRecipient(recipient);
      var isAmountValid := ValidateAmount(amount, env.parsedAmount);
      if !isRecipientValid || !isAmountValid {
        return;
      }
      RunTransfer(publicKey.value, network, env);
    }

    /**
     * The state after a submitted transfer `a`: the spinner is off; on success the
     * inputs are cleared and the explorer link and the session refresh follow the
     * calls made, on failure the inputs stay and a failure toast follows them.
     */
    predicate Submitted(recipient0: string, amount0: string, effects0: seq<Effect>, a: Attempt, network: Network)
      reads this
    {
      && !loading
      && (a.result.Returned? ==>
            recipient == "" && amount == "" &&
            effects == effects0 + CallEffects(a.calls) +
              [ToastLink("Transfer Successful", GetExplorerUrl(a.result.value, network)), Call(RefreshSessionBalance)])
      && (a.result.Threw? ==>
            recipient == recipient0 && amount == amount0 &&
            effects == effects0 + CallEffects(a.calls) +
              [Toast(Failure, "Transfer Failed", TransferFailureMessage(a.result.error))])
    }

    /**
     * The try, catch and finally blocks of `handleTransfer`, once both inputs are valid.
     * The try block runs step by step: each awaited call happens only when the one
     * before it succeeded, and the first failure leaves it.
     */
    method RunTransfer(from: PublicKey, network: Network, env: TransferEnv)
      modifies this`loading, this`recipient, this`amount, this`effects
      ensures Submitted(old(recipient), old(amount), old(effects), SubmitTransfer(from, env), network)
    {
      loading := true;
      var result: Outcome<string>;
      var calls: seq<ExternalCall> := [];
      label try: {
        if env.lamports.Threw? {
          result := Threw(env.lamports.error);
          break try;
        }
        var lamports := env.lamports.value;
        var built, fetched := CreateTransferTransaction(from, env.parsedRecipient, lamports, env.instruction,
                                                        env.latestBlockhash);
        if fetched {
          calls := calls + [GetLatestBlockhash];
        }
        if built.Threw? {
          result := Threw(built.error);
          break try;
        }
        calls := calls + [SignTransaction];
        if env.sign.Threw? {
          result := Threw(env.sign.error);
          break try;
        }
        if env.serialize.Threw? {
          result := Threw(env.serialize.error);
          break try;
        }
        calls := calls + [SendRawTransaction];
        if env.send.Threw? {
          result := Threw(env.send.error);
          break try;
        }
        var signature := env.send.value;
        calls := calls + [ConfirmTransaction(signature)];
        if env.confirm.Threw? {
          result := Threw(env.confirm.error);
          break try;
        }
        result := Returned(signature);
      }
      assert Attempt(result, calls) == SubmitTransfer(from, env);
      effects := effects + CallEffects(calls);
      match result {
        case Returned(signature) =>
          effects := effects + [ToastLink("Transfer Successful", GetExplorerUrl(signature, network))];
          recipient := "";
          amount := "";
          effects := effects + [Call(RefreshSessionBalance)];
        case Threw(e) =>
          effects := effects + [Toast(Failure, "Transfer Failed", TransferFailureMessage(e))];
      }
      loading := false;
    }
  }

  /** The effects that record a sequence of external calls. */
  function CallEffects(calls: seq<ExternalCall>): seq<Effect>
  {
    seq(|calls|, i requires 0 <= i < |calls| => Call(calls[i]))
  }
}
