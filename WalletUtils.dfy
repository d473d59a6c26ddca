/**
 * The `useWalletUtils` hook: the `loading` and `balance` state cells it owns,
 * and its `refreshBalance`, `connect` and `disconnect` helpers. The balance is
 * kept in lamports; the provider and RPC calls are outcomes handed in.
 */
module UseWalletUtils {
  import opened Common

  class WalletUtils {
    /** True while a balance fetch is in flight. */
    var loading: bool
    /** Last fetched balance in lamports, None when unknown. */
    var balance: Option<int>
    /** Notifications shown and external calls made, oldest first. */
    var effects: seq<Effect>

    constructor ()
      ensures !loading && balance == None && effects == []
    {
      loading := false;
      balance := None;
      effects := [];
    }

    /**
     * `refreshBalance(publicKey, connection)`: without a key nothing happens; otherwise
     * the balance is fetched, stored on success and kept on failure (with a toast),
     * and `loading` ends false either way.
     */
    method RefreshBalance(publicKey: Option<PublicKey>, getBalance: Outcome<int>)
      modifies this
      ensures publicKey.None? ==>
        loading == old(loading) && balance == old(balance) && effects == old(effects)
      ensures publicKey.Some? ==> !loading
      ensures publicKey.Some? && getBalance.Returned? ==>
        balance == Some(getBalance.value) && effects == old(effects) + [Call(GetBalance(publicKey.value))]
      ensures publicKey.Some? && getBalance.Threw? ==>
        balance == old(balance) &&
        effects == old(effects) + [Call(GetBalance(publicKey.value)),
                                   Toast(Failure, "Error", "Failed to fetch wallet balance")]
    {
      if publicKey.None? {
        return;
      }
      loading := true;
      effects := effects + [Call(GetBalance(publicKey.value))];
      match getBalance {
        case Returned(lamports) =>
          balance := Some(lamports);
        case Threw(_) =>
          effects := effects + [Toast(Failure, "Error", "Failed to fetch wallet balance")];
      }
      loading := false;
    }

    /**
     * `connect(wallet)`: without a wallet it only asks the user to install one and
     * returns normally; otherwise it calls the provider and, when that throws,
     * shows the failure and rethrows the same value.
     */
    method Connect(wallet: Option<WalletAdapter>, outcome: Outcome<()>) returns (thrown: Option<Thrown>)
      modifies this
      ensures loading == old(loading) && balance == old(balance)
      ensures wallet.None? ==>
        thrown == None &&
        effects == old(effects) + [Toast(Failure, "Wallet not found", "Please install Phantom wallet extension")]
      ensures wallet.Some? && outcome.Returned? ==>
        thrown == None && effects == old(effects) + [Call(ProviderConnect)]
      ensures wallet.Some? && outcome.Threw? ==>
        thrown == Some(outcome.error) &&
        effects == old(effects) + [Call(ProviderConnect),
                                   Toast(Failure, "Connection Failed", ErrorMessageOr(outcome.error, "Unknown error"))]
    {
      if wallet.None? {
        effects := effects + [Toast(Failure, "Wallet not found", "Please install Phantom wallet extension")];
        return None;
      }
      effects := effects + [Call(ProviderConnect)];
      match outcome {
        case Returned(_) =>
          thrown := None;
        case Threw(e) =>
          effects := effects + [Toast(Failure, "Connection Failed", ErrorMessageOr(e, "Unknown error"))];
          thrown := Some(e);
      }
    }

    /**
     * `disconnect(wallet)`: without a wallet nothing happens; otherwise it calls the
     * provider and, when that throws, shows the failure and rethrows the same value.
     */
    method Disconnect(wallet: Option<WalletAdapter>, outcome: Outcome<()>) returns (thrown: Option<Thrown>)
      modifies this
      ensures loading == old(loading) && balance == old(balance)
      ensures wallet.None? ==> thrown == None && effects == old(effects)
      ensures wallet.Some? && outcome.Returned? ==>
        thrown == None && effects == old(effects) + [Call(ProviderDisconnect)]
      ensures wallet.Some? && outcome.Threw? ==>
        thrown == Some(outcome.error) &&
        effects == old(effects) + [Call(ProviderDisconnect),
                                   Toast(Failure, "Disconnect Failed", "Failed to disconnect wallet")]
    {
      if wallet.None? {
        return None;
      }
      effects := effects + [Call(ProviderDisconnect)];
      match outcome {
        case Returned(_) =>
          thrown := None;
        case Threw(e) =>
          effects := effects + [Toast(Failure, "Disconnect Failed", "Failed to disconnect wallet")];
          thrown := Some(e);
      }
    }
  }
}
