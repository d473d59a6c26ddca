/**
 * The faucet panel of `src/components/Faucet.tsx`: its click handler requests
 * one SOL for the connected key, links the confirmed airdrop on the explorer,
 * and on any failure raises an alert and a toast whose text depends on the
 * error's message. The key and every RPC outcome are parameters.
 */
module Faucet {
  import opened Common
  import opened SolanaLib

  // ---------------------------------------------------------------------------
  // `String.prototype.includes`

  /** `s.includes(sub)`: `sub` occurs in `s`, found by sliding along `s`. */
  function Contains(s: string, sub: string): bool
    decreases |s|
  {
    if |sub| > |s| then false
    else if s[..|sub|] == sub then true
    else Contains(s[1..], sub)
  }

  /** `sub` occurs in `s` at position `i`. */
  predicate OccursAt(s: string, sub: string, i: int)
  {
    0 <= i && i + |sub| <= |s| && s[i..i + |sub|] == sub
  }

  /** `Contains` finds exactly the positions where `sub` occurs. */
  lemma {:induction false} ContainsIffOccurs(s: string, sub: string)
    ensures Contains(s, sub) <==> exists i :: OccursAt(s, sub, i)
    decreases |s|
  {
    if |sub| > |s| {
    } else if s[..|sub|] == sub {
      assert OccursAt(s, sub, 0);
    } else {
      ContainsIffOccurs(s[1..], sub);
      forall i | OccursAt(s[1..], sub, i) ensures OccursAt(s, sub, i + 1) {
        assert s[1..][i..i + |sub|] == s[i + 1..i + 1 + |sub|];
      }
      forall i | OccursAt(s, sub, i) ensures OccursAt(s[1..], sub, i - 1) {
        assert s[1..][i - 1..i - 1 + |sub|] == s[i..i + |sub|];
      }
    }
  }

  /** A text lacking one of `sub`'s characters does not contain `sub`. */
  lemma NotContainsMissingChar(s: string, sub: string, k: int)
    requires 0 <= k < |sub| && sub[k] !in s
    ensures !Contains(s, sub)
  {
    ContainsIffOccurs(s, sub);
    if i :| OccursAt(s, sub, i) {
      assert false;
    }
  }

  // ---------------------------------------------------------------------------
  // Failure messages

  const RateLimitMessage: string := "Rate limit exceeded. Please try again later."
  const DefaultFaucetError: string := "Failed to request SOL from faucet"
  const NotConnectedMessage: string := "Wallet is not Connected"
  const RateLimitAlert: string := "You are Rate limited for Airdrop"

  /** The message tests that mark a rate-limit failure; both are case-sensitive. */
  predicate IsRateLimitText(message: string)
  {
    Contains(message, "429") || Contains(message, "rate limit")
  }

  /** The description the failure toast shows for a thrown value. */
  function FaucetErrorMessage(e: Thrown): (m: string)
    ensures e.Error? && IsRateLimitText(e.message) ==> m == RateLimitMessage
    ensures e.Error? && !IsRateLimitText(e.message) ==> m == e.message
    ensures e.NonError? ==> m == DefaultFaucetError
  {
    match e
    case Error(_, message) =>
      if Contains(message, "429") || Contains(message, "rate limit") then RateLimitMessage else message
    case NonError => DefaultFaucetError
  }

  /** An HTTP 429 anywhere in the message selects the rate-limit text. */
  lemma StatusCode429IsRateLimit()
    ensures FaucetErrorMessage(Error(PlainError, "Server responded with 429 Too Many Requests"))
         == RateLimitMessage
  {
    var m := "Server responded with 429 Too Many Requests";
    assert OccursAt(m, "429", 22);
    ContainsIffOccurs(m, "429");
  }

  /** The test is case-sensitive: an upper-case "RATE LIMIT" is passed on verbatim. */
  lemma RateLimitTestIsCaseSensitive()
    ensures FaucetErrorMessage(Error(PlainError, "RATE LIMIT")) == "RATE LIMIT"
  {
    NotContainsMissingChar("RATE LIMIT", "429", 0);
    NotContainsMissingChar("RATE LIMIT", "rate limit", 0);
  }

  /** The not-connected guard's message reaches the toast verbatim. */
  lemma NotConnectedMessageVerbatim()
    ensures FaucetErrorMessage(Error(PlainError, NotConnectedMessage)) == NotConnectedMessage
  {
    var m := NotConnectedMessage;
    assert '4' !in m && 'r' !in m;
    NotContainsMissingChar(m, "429", 0);
    NotContainsMissingChar(m, "rate limit", 0);
  }

  // ---------------------------------------------------------------------------
  // The click handler

  /** `1 * LAMPORTS_PER_SOL`: every airdrop asks for one SOL. */
  const AirdropLamports: int := 1 * LamportsPerSol

  /** The fields of `getLatestBlockhash`'s result that `confirmTransaction` is given. */
  datatype BlockhashInfo = BlockhashInfo(blockhash: string, lastValidBlockHeight: int)

  /** The catch block: the alert, then the toast with the classified description. */
  function FailureEffects(e: Thrown): seq<Effect>
  {
    [Alert(RateLimitAlert), Toast(Failure, "Airdrop Failed", FaucetErrorMessage(e))]
  }

  /**
   * Everything one click shows and calls. `requested` is the outcome of the
   * `Promise.all` over the blockhash fetch and the airdrop request (the airdrop's
   * signature on success), `confirm` whether `confirmTransaction` gave a truthy result.
   */
  function AirdropEffects(publicKey: Option<PublicKey>, requested: Outcome<(BlockhashInfo, string)>,
                          confirm: Outcome<bool>): seq<Effect>
  {
    if publicKey.None? then FailureEffects(Error(PlainError, NotConnectedMessage))
    else
      var requests := [Call(GetLatestBlockhash), Call(RequestAirdrop(publicKey.value, AirdropLamports))];
      match requested
      case Threw(e) => requests + FailureEffects(e)
      case Returned((_, signature)) =>
        var confirming := requests + [Call(ConfirmTransaction(signature))];
        match confirm
        case Threw(e) => confirming + FailureEffects(e)
        case Returned(ok) =>
          confirming + (if ok then [ToastLink("Airdrop Successful", GetExplorerUrl(signature))] else [])
  }

  /** Without a key the click makes no network call and reports "Wallet is not Connected". */
  lemma AirdropWithoutKey(requested: Outcome<(BlockhashInfo, string)>, confirm: Outcome<bool>)
    ensures AirdropEffects(None, requested, confirm)
         == [Alert(RateLimitAlert), Toast(Failure, "Airdrop Failed", "Wallet is not Connected")]
  {
    NotConnectedMessageVerbatim();
  }

  /** With a key the click first asks for a blockhash and for exactly one SOL for that key. */
  lemma AirdropRequestsOneSol(pk: PublicKey, requested: Outcome<(BlockhashInfo, string)>, confirm: Outcome<bool>)
    ensures var effects := AirdropEffects(Some(pk), requested, confirm);
      |effects| >= 2 &&
      effects[..2] == [Call(GetLatestBlockhash), Call(RequestAirdrop(pk, 1_000_000_000))]
  {
  }

  /** A confirmed airdrop is linked on the devnet explorer, matching the panel's Devnet label. */
  lemma AirdropLinksDevnet(pk: PublicKey, info: BlockhashInfo, signature: string)
    ensures AirdropEffects(Some(pk), Returned((info, signature)), Returned(true))[3]
         == ToastLink("Airdrop Successful", "https://explorer.solana.com/tx/" + signature + "?cluster=devnet")
  {
    ExplorerUrlDefaults(signature);
  }

  /** Every failure raises the same alert, whatever it was; only the toast tells them apart. */
  lemma AirdropFailureAlwaysAlertsRateLimit(publicKey: Option<PublicKey>, requested: Outcome<(BlockhashInfo, string)>,
                                            confirm: Outcome<bool>)
    requires publicKey.None? || requested.Threw? || confirm.Threw?
    ensures var effects := AirdropEffects(publicKey, requested, confirm);
      |effects| >= 2 && effects[|effects| - 2] == Alert(RateLimitAlert) && effects[|effects| - 1].Toast?
  {
  }

  class FaucetPanel {
    /** Bound to the button's spinner; the handler only ever resets it. */
    var loading: bool
    /** Notifications shown and external calls made, oldest first. */
    var effects: seq<Effect>

    constructor ()
      ensures !loading && effects == []
    {
      loading := false;
      effects := [];
    }

    /** `getAirdropOnClick`: runs the request and leaves `loading` false in its `finally`. */
    method GetAirdropOnClick(publicKey: Option<PublicKey>, requested: Outcome<(BlockhashInfo, string)>,
                             confirm: Outcome<bool>)
      modifies this
      ensures !loading
      ensures effects == old(effects) + AirdropEffects(publicKey, requested, confirm)
    {
      var failure: Option<Thrown> := None;
      if publicKey.None? {
        failure := Some(Error(PlainError, NotConnectedMessage));
      } else {
        effects := effects + [Call(GetLatestBlockhash), Call(RequestAirdrop(publicKey.value, AirdropLamports))];
        match requested {
          case Threw(e) =>
            failure := Some(e);
          case Returned((_, signature)) =>
            effects := effects + [Call(ConfirmTransaction(signature))];
            match confirm {
              case Threw(e) =>
                failure := Some(e);
              case Returned(sigResult) =>
                if sigResult {
                  effects := effects + [ToastLink("Airdrop Successful", GetExplorerUrl(signature))];
                }
            }
        }
      }
      if failure.Some? {
        effects := effects + [Alert(RateLimitAlert)];
        var errorMessage := FaucetErrorMessage(failure.value);
        effects := effects + [Toast(Failure, "Airdrop Failed", errorMessage)];
      }
      loading := false;
    }
  }
}
