/**
 * `WalletProvider`: the React context holding the wallet connection, as an
 * object whose methods update its fields the way the component's setters
 * and `localStorage` calls do. Each method is proved to follow the
 * corresponding transition of `WalletMachine`.
 */
module WalletContext {
  import opened Options
  import opened Ui
  import HexChainId
  import M = WalletMachine

  class WalletProvider {
    var account: Option<string>
    var chainId: Option<nat>
    var walletType: Option<M.WalletKind>
    var isConnecting: bool
    /** A relay session object is held (`wcProvider !== null`). */
    var wcSession: bool
    /** Calls made to the relay session's `disconnect()`. */
    var closedSessions: nat
    /** `localStorage`. */
    var storage: map<M.StorageKey, string>
    /** Notifications emitted, oldest first; `WalletMachine.ToastOf` gives their text. */
    var toasts: seq<M.Notice>
    /** Calls made to `window.location.reload()`. */
    var reloads: nat

    function State(): M.WalletState
      reads this
    {
      M.WalletState(account, chainId, walletType, isConnecting, wcSession, closedSessions, storage, toasts, reloads)
    }

    /** Mounting the provider over whatever storage earlier visits left. */
    constructor (persisted: map<M.StorageKey, string>)
      ensures State() == M.Initial(persisted)
    {
      account, chainId, walletType := None, None, None;
      isConnecting, wcSession, closedSessions := false, false, 0;
      storage, toasts, reloads := persisted, [], 0;
    }

    method Notify(t: M.Notice)
      modifies this
      ensures State() == M.Notify(old(State()), t)
    {
      toasts := toasts + [t];
    }

    /** The mount effect; `attempted` says whether `connectWallet` was called. */
    method AutoReconnect(env: M.Environment) returns (attempted: bool)
      requires M.WellFormedEnv(env)
      modifies this
      ensures attempted <==> M.ReconnectTag(old(storage)).Some?
      ensures State() == M.Reconnect(old(State()), env)
    {
      var storedAccount := if M.ConnectedWalletKey in storage then storage[M.ConnectedWalletKey] else "";
      var storedWalletType := if M.WalletTypeKey in storage then storage[M.WalletTypeKey] else "";
      attempted := storedAccount != "" && storedWalletType != "";
      if attempted {
        ConnectWallet(storedWalletType, env);
      }
    }

    method ConnectMetaMask(env: M.Environment)
      requires M.WellFormedEnv(env)
      modifies this
      ensures State() == M.ConnectMetaMask(old(State()), env)
    {
      if !env.injected {
        Notify(M.MetaMaskNotFound);
        isConnecting := false;
        return;
      }
      match env.metaMask
      case MetaMaskApproved(accounts, chainIdHex) =>
        account := Some(accounts[0]);
        chainId := Some(HexChainId.ParseChainId(chainIdHex));
        storage := storage[M.ConnectedWalletKey := accounts[0]];
        storage := storage[M.WalletTypeKey := "metamask"];
        walletType := Some(M.MetaMask);
        Notify(M.WalletConnected(accounts[0]));
      case MetaMaskThrown(message) =>
        Notify(M.ConnectionFailed(message));
    }

    method ConnectWalletConnect(env: M.Environment)
      requires M.WellFormedEnv(env)
      modifies this
      ensures State() == M.ConnectWalletConnect(old(State()), env)
    {
      match env.walletConnect
      case WalletConnectApproved(accounts, network) =>
        wcSession := true;
        account := Some(accounts[0]);
        chainId := Some(network);
        storage := storage[M.ConnectedWalletKey := accounts[0]];
        storage := storage[M.WalletTypeKey := "walletconnect"];
        walletType := Some(M.WalletConnect);
        Notify(M.WalletConnected(accounts[0]));
      case WalletConnectThrown(message, sessionCreated) =>
        if sessionCreated {
          wcSession := true;
        }
        Notify(M.ConnectionFailed(message));
    }

    /** `connectWallet(type)`, each call taken as atomic. */
    method ConnectWallet(tag: string, env: M.Environment)
      requires M.WellFormedEnv(env)
      modifies this
      ensures State() == M.Connect(old(State()), tag, env)
      ensures !isConnecting
    {
      isConnecting := true;
      if tag == "metamask" {
        ConnectMetaMask(env);
      } else if tag == "walletconnect" {
        ConnectWalletConnect(env);
      }
      isConnecting := false;
    }

    method DisconnectWallet()
      modifies this
      ensures State() == M.Disconnect(old(State()))
    {
      ghost var stored := storage;
      if walletType == Some(M.WalletConnect) && wcSession {
        closedSessions := closedSessions + 1;
        wcSession := false;
      }
      account := None;
      chainId := None;
      walletType := None;
      storage := storage - {M.ConnectedWalletKey};
      storage := storage - {M.WalletTypeKey};
      assert storage == stored - {M.ConnectedWalletKey, M.WalletTypeKey};
      Notify(M.WalletDisconnected);
    }

    method OnMetaMaskAccountsChanged(accounts: seq<string>)
      requires M.MetaMaskListening(State())
      modifies this
      ensures State() == M.MetaMaskAccountsChanged(old(State()), accounts)
    {
      if |accounts| == 0 {
        DisconnectWallet();
      } else if account != Some(accounts[0]) {
        account := Some(accounts[0]);
        storage := storage[M.ConnectedWalletKey := accounts[0]];
        Notify(M.AccountChanged(accounts[0]));
      }
    }

    method OnMetaMaskChainChanged(chainIdHex: string)
      requires M.MetaMaskListening(State()) && HexChainId.WellFormed(chainIdHex)
      modifies this
      ensures State() == M.ChainChanged(old(State()), HexChainId.ParseChainId(chainIdHex))
    {
      chainId := Some(HexChainId.ParseChainId(chainIdHex));
      reloads := reloads + 1;
    }

    method OnMetaMaskDisconnect()
      requires M.MetaMaskListening(State())
      modifies this
      ensures State() == M.Disconnect(old(State()))
    {
      DisconnectWallet();
    }

    method OnWalletConnectAccountsChanged(accounts: seq<string>)
      requires M.WalletConnectListening(State())
      modifies this
      ensures State() == M.WalletConnectAccountsChanged(old(State()), accounts)
    {
      if |accounts| == 0 {
        DisconnectWallet();
      } else {
        account := Some(accounts[0]);
        storage := storage[M.ConnectedWalletKey := accounts[0]];
        Notify(M.AccountChanged(accounts[0]));
      }
    }

    method OnWalletConnectChainChanged(network: nat)
      requires M.WalletConnectListening(State())
      modifies this
      ensures State() == M.ChainChanged(old(State()), network)
    {
      chainId := Some(network);
      reloads := reloads + 1;
    }

    method OnWalletConnectDisconnect()
      requires M.WalletConnectListening(State())
      modifies this
      ensures State() == M.Disconnect(old(State()))
    {
      DisconnectWallet();
    }
  }
}
