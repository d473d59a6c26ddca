/**
 * The `WalletProvider` session of `src/contexts/WalletContext.tsx`: the shared
 * wallet, key, connection flags, network and RPC connection, the balance state
 * borrowed from `useWalletUtils`, the user's connect and disconnect, and the
 * three handlers the injected provider's events run.
 */
module WalletContext {
  import opened Common
  import opened SolanaLib
  import opened UseWalletUtils

  class WalletSession {
    var wallet: Option<WalletAdapter>
    var publicKey: Option<PublicKey>
    var connected: bool
    var connecting: bool
    var network: Network
    var connection: Connection
    /** The key the provider's event listeners closed over when they were registered. */
    var listenerKey: Option<PublicKey>
    /** The `useWalletUtils` hook instance: it owns `balance` and `loading`. */
    const utils: WalletUtils

    /** The connection always belongs to the selected network. */
    predicate ConnectionInSync()
      reads this
    {
      connection == GetConnection(network)
    }

    /** `connected` and `publicKey` are kept in step. */
    predicate KeyInStep()
      reads this
    {
      connected <==> publicKey.Some?
    }

    /** The initial state of `WalletProvider`: nothing connected, devnet selected. */
    constructor ()
      ensures wallet == None && publicKey == None && !connected && !connecting && listenerKey == None
      ensures network == DefaultNetwork && connection == GetConnection(DefaultNetwork)
      ensures fresh(utils) && utils.balance == None && !utils.loading && utils.effects == []
      ensures ConnectionInSync() && KeyInStep()
    {
      wallet := None;
      publicKey := None;
      connected := false;
      connecting := false;
      network := DefaultNetwork;
      connection := GetConnection(DefaultNetwork);
      listenerKey := None;
      utils := new WalletUtils();
    }

    /** `setNetwork(n)` followed by the effect that rebuilds the connection for it. */
    method SetNetwork(n: Network)
      modifies this
      ensures network == n && connection == GetConnection(n) && ConnectionInSync()
      ensures wallet == old(wallet) && publicKey == old(publicKey) && connected == old(connected)
      ensures connecting == old(connecting) && listenerKey == old(listenerKey)
    {
      network := n;
      connection := GetConnection(network);
    }

    /**
     * `checkForPhantom`: adopts the injected provider, takes over its connection when it
     * reports one, and registers the event listeners over the key held at that moment.
     */
    method CheckForPhantom(injected: Option<WalletAdapter>)
      modifies this
      ensures injected.None? ==>
        wallet == old(wallet) && publicKey == old(publicKey) && connected == old(connected) &&
        listenerKey == old(listenerKey)
      ensures injected.Some? ==> wallet == injected && listenerKey == old(publicKey)
      ensures injected.Some? && injected.value.isConnected ==>
        connected && publicKey == injected.value.publicKey
      ensures injected.Some? && !injected.value.isConnected ==>
        connected == old(connected) && publicKey == old(publicKey)
      ensures connecting == old(connecting) && network == old(network) && connection == old(connection)
      ensures old(KeyInStep()) && (injected.Some? && injected.value.isConnected ==> injected.value.publicKey.Some?) ==>
        KeyInStep()
    {
      if injected.None? {
        return;
      }
      var adapter := injected.value;
      var renderedKey := publicKey;
      wallet := Some(adapter);
      if adapter.isConnected {
        connected := true;
        publicKey := adapter.publicKey;
      }
      listenerKey := renderedKey;
    }

    /** The provider's `connect` event: adopt the key and leave the connecting state. */
    method OnProviderConnect(pk: PublicKey)
      modifies this
      ensures publicKey == Some(pk) && connected && !connecting && KeyInStep()
      ensures wallet == old(wallet) && network == old(network) && connection == old(connection)
      ensures listenerKey == old(listenerKey)
    {
      publicKey := Some(pk);
      connected := true;
      connecting := false;
    }

    /** The provider's `disconnect` event: forget the key and the balance. */
    method OnProviderDisconnect()
      modifies this, utils
      ensures publicKey == None && !connected && utils.balance == None && KeyInStep()
      ensures connecting == old(connecting) && wallet == old(wallet)
      ensures network == old(network) && connection == old(connection) && listenerKey == old(listenerKey)
      ensures utils.loading == old(utils.loading) && utils.effects == old(utils.effects)
    {
      publicKey := None;
      connected := false;
      utils.balance := None;
    }

    /**
     * The provider's `accountChanged` event as evidently intended (the corrected
     * listener): adopt the new key (connected exactly when there is one), forget the
     * balance, and fetch the new account's balance when there is a new account. The
     * listener as registered is `OnAccountChangedAsWritten`.
     */
    method OnAccountChanged(pk: Option<PublicKey>, getBalance: Outcome<int>)
      modifies this, utils
      ensures publicKey == pk && connected == pk.Some? && KeyInStep()
      ensures pk.None? ==>
        utils.balance == None && utils.loading == old(utils.loading) && utils.effects == old(utils.effects)
      ensures pk.Some? ==>
        utils.effects == old(utils.effects) + [Call(GetBalance(pk.value))] +
          (if getBalance.Threw? then [Toast(Failure, "Error", "Failed to fetch wallet balance")] else [])
      ensures pk.Some? ==> !utils.loading && utils.balance == (if getBalance.Returned? then Some(getBalance.value) else None)
      ensures connecting == old(connecting) && wallet == old(wallet)
      ensures network == old(network) && connection == old(connection) && listenerKey == old(listenerKey)
    {
      publicKey := pk;
      connected := pk.Some?;
      utils.balance := None;
      if pk.Some? {
        RefreshWalletBalance(getBalance);
      }
    }

    /**
     * The `accountChanged` listener as the source registers it: its refresh runs over
     * `listenerKey`, the key of the render that registered it, not over `pk`.
     */
    method OnAccountChangedAsWritten(pk: Option<PublicKey>, getBalance: Outcome<int>)
      modifies this, utils
      ensures publicKey == pk && connected == pk.Some? && KeyInStep()
      ensures listenerKey.None? || pk.None? ==>
        utils.balance == None && utils.loading == old(utils.loading) && utils.effects == old(utils.effects)
      ensures connecting == old(connecting) && wallet == old(wallet)
      ensures network == old(network) && connection == old(connection) && listenerKey == old(listenerKey)
    {
      publicKey := pk;
      connected := pk.Some?;
      utils.balance := None;
      if pk.Some? {
        utils.RefreshBalance(listenerKey, getBalance);
      }
    }

    /** The context's `refreshBalance`: refresh for the current key. */
    method RefreshWalletBalance(getBalance: Outcome<int>)
      modifies utils
      ensures publicKey.None? ==>
        utils.balance == old(utils.balance) && utils.loading == old(utils.loading) && utils.effects == old(utils.effects)
      ensures publicKey.Some? ==> !utils.loading
      ensures publicKey.Some? ==> utils.balance == (if getBalance.Returned? then Some(getBalance.value) else old(utils.balance))
      ensures publicKey.Some? ==>
        utils.effects == old(utils.effects) + [Call(GetBalance(publicKey.value))] +
          (if getBalance.Threw? then [Toast(Failure, "Error", "Failed to fetch wallet balance")] else [])
    {
      utils.RefreshBalance(publicKey, getBalance);
    }

    /** The effect over `[connected, publicKey, connection]`: refresh when connected with a key. */
    method BalanceEffect(getBalance: Outcome<int>)
      modifies utils
      ensures !(connected && publicKey.Some?) ==>
        utils.balance == old(utils.balance) && utils.loading == old(utils.loading) && utils.effects == old(utils.effects)
      ensures connected && publicKey.Some? ==>
        !utils.loading &&
        utils.balance == (if getBalance.Returned? then Some(getBalance.value) else old(utils.balance)) &&
        utils.effects == old(utils.effects) + [Call(GetBalance(publicKey.value))] +
          (if getBalance.Threw? then [Toast(Failure, "Error", "Failed to fetch wallet balance")] else [])
    {
      if connected && publicKey.Some? {
        RefreshWalletBalance(getBalance);
      }
    }

    /**
     * The user's `connect`: a no-op when connected; otherwise `connecting` is raised for
     * the provider call and lowered afterwards, and a provider failure is rethrown. It
     * never sets `connected` or `publicKey`: only the provider's `connect` event does.
     */
    method Connect(outcome: Outcome<()>) returns (thrown: Option<Thrown>)
      modifies this, utils
      ensures old(connected) ==> connecting == old(connecting) && thrown == None && utils.effects == old(utils.effects)
      ensures !old(connected) ==> !connecting
      ensures !old(connected) ==>
        thrown == (if wallet.Some? && outcome.Threw? then Some(outcome.error) else None)
      ensures !old(connected) && wallet.None? ==>
        utils.effects == old(utils.effects) + [Toast(Failure, "Wallet not found", "Please install Phantom wallet extension")]
      ensures !old(connected) && wallet.Some? ==>
        utils.effects == old(utils.effects) + [Call(ProviderConnect)] +
          (if outcome.Threw? then [Toast(Failure, "Connection Failed", ErrorMessageOr(outcome.error, "Unknown error"))] else [])
      ensures connected == old(connected) && publicKey == old(publicKey) && wallet == old(wallet)
      ensures network == old(network) && connection == old(connection) && listenerKey == old(listenerKey)
      ensures utils.balance == old(utils.balance) && utils.loading == old(utils.loading)
    {
      if connected {
        return None;
      }
      connecting := true;
      thrown := utils.Connect(wallet, outcome);
      connecting := false;
    }

    /**
     * The user's `disconnect`: a no-op without a wallet or when not connected; it clears
     * the key, the flag and the balance only when the provider call succeeds, and a
     * failure (already reported by the hook) is swallowed with nothing cleared.
     */
    method Disconnect(outcome: Outcome<()>)
      modifies this, utils
      ensures (old(wallet).None? || !old(connected)) ==>
        publicKey == old(publicKey) && connected == old(connected) &&
        utils.balance == old(utils.balance) && utils.effects == old(utils.effects)
      ensures old(wallet).Some? && old(connected) && outcome.Returned? ==>
        publicKey == None && !connected && utils.balance == None &&
        utils.effects == old(utils.effects) + [Call(ProviderDisconnect)]
      ensures old(wallet).Some? && old(connected) && outcome.Threw? ==>
        publicKey == old(publicKey) && connected == old(connected) && utils.balance == old(utils.balance) &&
        utils.effects == old(utils.effects) + [Call(ProviderDisconnect),
                                               Toast(Failure, "Disconnect Failed", "Failed to disconnect wallet")]
      ensures old(KeyInStep()) ==> KeyInStep()
      ensures connecting == old(connecting) && wallet == old(wallet) && listenerKey == old(listenerKey)
      ensures network == old(network) && connection == old(connection) && utils.loading == old(utils.loading)
    {
      if wallet.None? || !connected {
        return;
      }
      var thrown := utils.Disconnect(wallet, outcome);
      if thrown.None? {
        publicKey := None;
        connected := false;
        utils.balance := None;
      }
    }
  }

  /**
   * The listener as registered never fetches: it is registered at mount, over the
   * initial key (none), so a switch to a new account records no balance request.
   */
  method StaleAccountRefreshWitness(adapter: WalletAdapter, pk: PublicKey, lamports: int)
    returns (fetched: bool, log: seq<Effect>)
    ensures !fetched && log == []
  {
    var session := new WalletSession();
    session.CheckForPhantom(Some(adapter));
    session.OnAccountChangedAsWritten(Some(pk), Returned(lamports));
    fetched := Call(GetBalance(pk)) in session.utils.effects;
    log := session.utils.effects;
  }

  /** The corrected listener fetches the new account's balance and stores it. */
  method AccountRefreshWitness(adapter: WalletAdapter, pk: PublicKey, lamports: int) returns (fetched: bool, balance: Option<int>)
    ensures fetched && balance == Some(lamports)
  {
    var session := new WalletSession();
    session.CheckForPhantom(Some(adapter));
    session.OnAccountChanged(Some(pk), Returned(lamports));
    fetched := Call(GetBalance(pk)) in session.utils.effects;
    balance := session.utils.balance;
  }
}
