/** The wallet store (frontend/src/redux/walletSlice.ts): the connected
    account, its chain, and the provider and signer handles. */
module WalletSlice {
  import opened Common

  /** An opaque provider handle. */
  datatype Provider = Provider(id: nat)

  /** A signer handle: the account it signs for, and whether it carries a
      provider (`signer.provider`). */
  datatype Signer = Signer(address: Address, hasProvider: bool)

  datatype WalletState = WalletState(
    address: Option<Address>,
    chainId: Option<int>,
    provider: Option<Provider>,
    signer: Option<Signer>,
    isConnected: bool)

  const InitialWallet := WalletState(None, None, None, None, false)

  /** Connected exactly when an address is recorded. */
  predicate Consistent(w: WalletState)
  {
    w.isConnected <==> w.address.Some?
  }

  /** The two reducers as actions on the wallet state. */
  datatype WalletAction =
    | SetWalletAction(address: Address, chainId: int, provider: Provider, signer: Signer)
    | DisconnectAction

  /** The state a reducer leaves: `setWallet` copies its payload and marks the
      wallet connected; `disconnectWallet` returns to the initial state. */
  function Reduce(w: WalletState, action: WalletAction): WalletState
  {
    match action
    case SetWalletAction(a, c, p, s) => WalletState(Some(a), Some(c), Some(p), Some(s), true)
    case DisconnectAction => InitialWallet
  }

  /** The state after a sequence of actions, in order. */
  function ReduceAll(w: WalletState, actions: seq<WalletAction>): WalletState
    decreases |actions|
  {
    if actions == [] then w else ReduceAll(Reduce(w, actions[0]), actions[1..])
  }

  class WalletStore {
    var address: Option<Address>
    var chainId: Option<int>
    var provider: Option<Provider>
    var signer: Option<Signer>
    var isConnected: bool

    function State(): WalletState
      reads this
    {
      WalletState(address, chainId, provider, signer, isConnected)
    }

    constructor ()
      ensures State() == InitialWallet && Consistent(State())
    {
      address, chainId, provider, signer := None, None, None, None;
      isConnected := false;
    }

    /** `setWallet`: the whole payload is copied and the wallet is connected. */
    method SetWallet(newAddress: Address, newChainId: int, newProvider: Provider, newSigner: Signer)
      modifies this
      ensures State() == Reduce(old(State()), SetWalletAction(newAddress, newChainId, newProvider, newSigner))
    {
      address := Some(newAddress);
      chainId := Some(newChainId);
      provider := Some(newProvider);
      signer := Some(newSigner);
      isConnected := true;
    }

    /** `disconnectWallet`: back to the initial state from any state. */
    method DisconnectWallet()
      modifies this
      ensures State() == Reduce(old(State()), DisconnectAction)
    {
      address := None;
      chainId := None;
      provider := None;
      signer := None;
      isConnected := false;
    }
  }

  // ---------------------------------------------------------------------
  // Properties

  /** Each reducer leaves a consistent state, whatever the state before. */
  lemma ReduceIsConsistent(w: WalletState, action: WalletAction)
    ensures Consistent(Reduce(w, action))
    ensures action.SetWalletAction? ==> Reduce(w, action).address == Some(action.address) && Reduce(w, action).isConnected
  {
  }

  /** Along any sequence of the two reducers from a consistent state,
      `isConnected` holds exactly when an address is recorded. */
  lemma {:induction false} ReduceAllIsConsistent(w: WalletState, actions: seq<WalletAction>)
    requires Consistent(w)
    ensures Consistent(ReduceAll(w, actions))
    decreases |actions|
  {
    if actions != [] {
      ReduceIsConsistent(w, actions[0]);
      ReduceAllIsConsistent(Reduce(w, actions[0]), actions[1..]);
    }
  }

  /** Disconnecting is idempotent, and connecting then disconnecting is the initial state. */
  lemma DisconnectResets(w: WalletState, a: Address, c: int, p: Provider, s: Signer)
    ensures ReduceAll(w, [DisconnectAction, DisconnectAction]) == Reduce(w, DisconnectAction) == InitialWallet
    ensures ReduceAll(w, [SetWalletAction(a, c, p, s), DisconnectAction]) == InitialWallet
    ensures Consistent(InitialWallet)
  {
    assert [DisconnectAction, DisconnectAction][1..] == [DisconnectAction];
    assert [SetWalletAction(a, c, p, s), DisconnectAction][1..] == [DisconnectAction];
  }
}
