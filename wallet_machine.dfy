/**
 * The wallet connection manager as a value-level state machine: one state
 * record, one function per transition. The `WalletProvider` class in module
 * `WalletContext` is proved to follow these functions step by step, and the
 * lemmas here state what the transitions promise.
 *
 * The environment of a transition (is an injected provider present, how the
 * handshake ends, which accounts and chain it reports) is a parameter.
 */
module WalletMachine {
  import opened Options
  import opened Ui
  import AddressFormat
  import HexChainId

  /** A `localStorage` key name other than the two the manager uses. */
  type OtherName = n: string | n != "connectedWallet" && n != "walletType" witness ""

  /** A `localStorage` key: the two the manager uses, or any other name. */
  datatype StorageKey = ConnectedWalletKey | WalletTypeKey | OtherKey(name: OtherName)

  /** The name under which a key is stored; distinct keys have distinct names. */
  function KeyName(key: StorageKey): (r: string)
    ensures key.ConnectedWalletKey? <==> r == "connectedWallet"
    ensures key.WalletTypeKey? <==> r == "walletType"
    ensures key.OtherKey? ==> r == key.name
  {
    match key
    case ConnectedWalletKey => "connectedWallet"
    case WalletTypeKey => "walletType"
    case OtherKey(name) => name
  }

  /** Two model keys with one storage name are the same key. */
  lemma KeyNamesDistinct(a: StorageKey, b: StorageKey)
    ensures KeyName(a) == KeyName(b) ==> a == b
  {
  }

  datatype WalletKind = MetaMask | WalletConnect

  /** The tag stored under `walletType` and passed to `connectWallet`. */
  function Tag(kind: WalletKind): string {
    match kind
    case MetaMask => "metamask"
    case WalletConnect => "walletconnect"
  }

  /** Which branch of `connectWallet` a tag selects; other tags select neither. */
  function KindOfTag(tag: string): (r: Option<WalletKind>)
    ensures forall kind :: r == Some(kind) <==> tag == Tag(kind)
  {
    if tag == "metamask" then Some(MetaMask)
    else if tag == "walletconnect" then Some(WalletConnect)
    else None
  }

  /** How the injected provider's `eth_requestAccounts` / `eth_chainId` round trip ends. */
  datatype MetaMaskReply =
    | MetaMaskApproved(accounts: seq<string>, chainIdHex: string)
    | MetaMaskThrown(message: string)

  /**
   * How the relay handshake ends. The relay session object is stored before
   * `enable()` runs, so a failure may come after the session was created.
   */
  datatype WalletConnectReply =
    | WalletConnectApproved(accounts: seq<string>, chainId: nat)
    | WalletConnectThrown(message: string, sessionCreated: bool)

  /** Everything outside the manager that one connection attempt observes. */
  datatype Environment = Environment(injected: bool, metaMask: MetaMaskReply, walletConnect: WalletConnectReply)

  /** Replies that carry at least one account and, for MetaMask, a readable hex chain id. */
  predicate WellFormedEnv(env: Environment) {
    && (env.metaMask.MetaMaskApproved? ==>
          |env.metaMask.accounts| > 0 && HexChainId.WellFormed(env.metaMask.chainIdHex))
    && (env.walletConnect.WalletConnectApproved? ==> |env.walletConnect.accounts| > 0)
  }

  /**
   * The manager's state. `wcSession` says a relay session object is held;
   * `closedSessions` counts the calls to its `disconnect()`; `toasts` is the
   * log of notifications emitted and `reloads` counts page reloads.
   */
  datatype WalletState = WalletState(
    account: Option<string>,
    chainId: Option<nat>,
    walletType: Option<WalletKind>,
    isConnecting: bool,
    wcSession: bool,
    closedSessions: nat,
    storage: map<StorageKey, string>,
    toasts: seq<Notice>,
    reloads: nat)

  /** The state on mount: nothing connected, storage as persisted from earlier visits. */
  function Initial(persisted: map<StorageKey, string>): WalletState {
    WalletState(None, None, None, false, false, 0, persisted, [], 0)
  }

  // Notifications

  /** The notifications the manager emits. */
  datatype Notice =
    | WalletConnected(address: string)
    | MetaMaskNotFound
    | ConnectionFailed(message: string)
    | WalletDisconnected
    | AccountChanged(address: string)

  predicate IsFailure(n: Notice) {
    n.MetaMaskNotFound? || n.ConnectionFailed?
  }

  /** The toast each notice shows; only the two failures are destructive. */
  function ToastOf(n: Notice): (t: Toast)
    ensures t.variant == Destructive <==> IsFailure(n)
  {
    match n
    case WalletConnected(address) =>
      Toast("Wallet Connected", "Connected to " + AddressFormat.ShortenAddress(address), Default)
    case MetaMaskNotFound =>
      Toast("MetaMask not found", "Please install MetaMask browser extension to connect", Destructive)
    case ConnectionFailed(message) =>
      // `error.message || "Failed to connect wallet"`; an absent message is the empty one.
      Toast("Connection Failed", if message == "" then "Failed to connect wallet" else message, Destructive)
    case WalletDisconnected =>
      Toast("Wallet Disconnected", "Your wallet has been disconnected", Default)
    case AccountChanged(address) =>
      Toast("Account Changed", "Connected to " + AddressFormat.ShortenAddress(address), Default)
  }

  // Transitions

  function Notify(s: WalletState, t: Notice): WalletState {
    s.(toasts := s.toasts + [t])
  }

  /** The common tail of both successful handshakes. */
  function Established(s: WalletState, address: string, chain: nat, kind: WalletKind): WalletState {
    Notify(s.(account := Some(address), chainId := Some(chain), walletType := Some(kind),
              storage := s.storage[ConnectedWalletKey := address][WalletTypeKey := Tag(kind)]),
           WalletConnected(address))
  }

  /** The account switch both backends' `accountsChanged` handlers perform. */
  function AccountSwitched(s: WalletState, address: string): WalletState {
    Notify(s.(account := Some(address), storage := s.storage[ConnectedWalletKey := address]),
           AccountChanged(address))
  }

  /**
   * `connectMetaMask`: with no injected provider it notifies and lowers
   * `isConnecting` itself; an approval records the first account, the decoded
   * chain id and the kind; a thrown error notifies and changes nothing else.
   * The relay session is never touched.
   */
  function ConnectMetaMask(s: WalletState, env: Environment): (r: WalletState)
    requires WellFormedEnv(env)
    ensures r.wcSession == s.wcSession && r.closedSessions == s.closedSessions && r.reloads == s.reloads
    ensures r.isConnecting == (s.isConnecting && env.injected)
    ensures env.injected && env.metaMask.MetaMaskApproved? ==>
      var address := env.metaMask.accounts[0];
      && r.account == Some(address)
      && r.chainId == Some(HexChainId.ParseChainId(env.metaMask.chainIdHex))
      && r.walletType == Some(MetaMask)
      && r.storage == s.storage[ConnectedWalletKey := address][WalletTypeKey := "metamask"]
      && r.toasts == s.toasts + [WalletConnected(address)]
    ensures !env.injected ==> r.toasts == s.toasts + [MetaMaskNotFound]
    ensures env.injected && env.metaMask.MetaMaskThrown? ==>
      r.toasts == s.toasts + [ConnectionFailed(env.metaMask.message)]
    ensures !env.injected || env.metaMask.MetaMaskThrown? ==>
      r.account == s.account && r.chainId == s.chainId && r.walletType == s.walletType
      && r.storage == s.storage
  {
    if !env.injected then Notify(s, MetaMaskNotFound).(isConnecting := false)
    else
      match env.metaMask
      case MetaMaskApproved(accounts, hex) =>
        Established(s, accounts[0], HexChainId.ParseChainId(hex), MetaMask)
      case MetaMaskThrown(message) => Notify(s, ConnectionFailed(message))
  }

  /**
   * `connectWalletConnect`: the relay session is held from the moment it is
   * created, before its handshake; an approval records the first account, the
   * chain id and the kind, and a failure notifies and changes nothing else.
   */
  function ConnectWalletConnect(s: WalletState, env: Environment): (r: WalletState)
    requires WellFormedEnv(env)
    ensures r.isConnecting == s.isConnecting
    ensures r.closedSessions == s.closedSessions && r.reloads == s.reloads
    ensures env.walletConnect.WalletConnectApproved? ==>
      var address := env.walletConnect.accounts[0];
      && r.wcSession
      && r.account == Some(address) && r.chainId == Some(env.walletConnect.chainId)
      && r.walletType == Some(WalletConnect)
      && r.storage == s.storage[ConnectedWalletKey := address][WalletTypeKey := "walletconnect"]
      && r.toasts == s.toasts + [WalletConnected(address)]
    ensures env.walletConnect.WalletConnectThrown? ==>
      && r.wcSession == (s.wcSession || env.walletConnect.sessionCreated)
      && r.account == s.account && r.chainId == s.chainId && r.walletType == s.walletType
      && r.storage == s.storage
      && r.toasts == s.toasts + [ConnectionFailed(env.walletConnect.message)]
  {
    match env.walletConnect
    case WalletConnectApproved(accounts, chain) =>
      Established(s.(wcSession := true), accounts[0], chain, WalletConnect)
    case WalletConnectThrown(message, created) =>
      Notify(s.(wcSession := s.wcSession || created), ConnectionFailed(message))
  }

  /** The handshake the tag selects completes with an account. */
  predicate Approves(tag: string, env: Environment) {
    || (tag == Tag(MetaMask) && env.injected && env.metaMask.MetaMaskApproved?)
    || (tag == Tag(WalletConnect) && env.walletConnect.WalletConnectApproved?)
  }

  /** The handshake the tag selects fails: no injected provider, or an error is caught. */
  predicate Fails(tag: string, env: Environment) {
    || (tag == Tag(MetaMask) && (!env.injected || env.metaMask.MetaMaskThrown?))
    || (tag == Tag(WalletConnect) && env.walletConnect.WalletConnectThrown?)
  }

  /** The account and chain id a successful handshake reports, the latter decoded. */
  function Reported(tag: string, env: Environment): (string, nat)
    requires WellFormedEnv(env) && Approves(tag, env)
  {
    if tag == Tag(MetaMask) then
      (env.metaMask.accounts[0], HexChainId.ParseChainId(env.metaMask.chainIdHex))
    else
      (env.walletConnect.accounts[0], env.walletConnect.chainId)
  }

  /**
   * `connectWallet(tag)` run to completion: `isConnecting` is raised on
   * entry and lowered on every outcome. A success records the reported
   * account, chain and kind in the state and in both storage keys; a failure
   * changes neither and emits one destructive notification; an unknown tag
   * does nothing visible.
   */
  function Connect(s: WalletState, tag: string, env: Environment): (r: WalletState)
    requires WellFormedEnv(env)
    ensures !r.isConnecting
    ensures r.reloads == s.reloads && r.closedSessions == s.closedSessions
    ensures Approves(tag, env) ==>
      var (address, chain) := Reported(tag, env);
      && r.account == Some(address) && r.chainId == Some(chain)
      && r.walletType == KindOfTag(tag)
      && r.storage == s.storage[ConnectedWalletKey := address][WalletTypeKey := tag]
      && r.toasts == s.toasts + [WalletConnected(address)]
    ensures Fails(tag, env) ==>
      && r.account == s.account && r.chainId == s.chainId && r.walletType == s.walletType
      && r.storage == s.storage
      && |r.toasts| == |s.toasts| + 1 && r.toasts[..|s.toasts|] == s.toasts
      && IsFailure(r.toasts[|s.toasts|])
    ensures tag == Tag(WalletConnect) && env.walletConnect.WalletConnectApproved? ==> r.wcSession
    ensures tag == Tag(WalletConnect) && env.walletConnect.WalletConnectThrown? ==>
      r.wcSession == (s.wcSession || env.walletConnect.sessionCreated)
    ensures tag != Tag(WalletConnect) ==> r.wcSession == s.wcSession
    ensures KindOfTag(tag).None? ==> r == s.(isConnecting := false)
  {
    var entered := s.(isConnecting := true);
    var settled :=
      if tag == "metamask" then ConnectMetaMask(entered, env)
      else if tag == "walletconnect" then ConnectWalletConnect(entered, env)
      else entered;
    settled.(isConnecting := false)
  }

  /**
   * `disconnectWallet`: closes and forgets the relay session only when the
   * active kind is WalletConnect and a session is held; always clears the
   * connection, removes both storage keys (and no other) and notifies once.
   */
  function Disconnect(s: WalletState): (r: WalletState)
    ensures r.account.None? && r.chainId.None? && r.walletType.None?
    ensures r.storage.Keys == s.storage.Keys - {ConnectedWalletKey, WalletTypeKey}
    ensures forall key :: key in r.storage ==> r.storage[key] == s.storage[key]
    ensures var closes := s.walletType == Some(WalletConnect) && s.wcSession;
      && r.wcSession == (s.wcSession && !closes)
      && r.closedSessions == s.closedSessions + (if closes then 1 else 0)
    ensures r.toasts == s.toasts + [WalletDisconnected]
    ensures r.isConnecting == s.isConnecting && r.reloads == s.reloads
  {
    var closed :=
      if s.walletType == Some(WalletConnect) && s.wcSession
      then s.(wcSession := false, closedSessions := s.closedSessions + 1)
      else s;
    Notify(closed.(account := None, chainId := None, walletType := None,
                   storage := closed.storage - {ConnectedWalletKey, WalletTypeKey}),
           WalletDisconnected)
  }

  /**
   * The injected provider's `accountsChanged`: an empty list disconnects, a
   * different first account is adopted, persisted and announced, the
   * current account again changes nothing.
   */
  function MetaMaskAccountsChanged(s: WalletState, accounts: seq<string>): (r: WalletState)
    ensures accounts == [] ==> r == Disconnect(s)
    ensures accounts != [] && s.account != Some(accounts[0]) ==>
      && r.account == Some(accounts[0])
      && r.storage == s.storage[ConnectedWalletKey := accounts[0]]
      && r.toasts == s.toasts + [AccountChanged(accounts[0])]
      && r == s.(account := r.account, storage := r.storage, toasts := r.toasts)
    ensures accounts != [] && s.account == Some(accounts[0]) ==> r == s
  {
    if |accounts| == 0 then Disconnect(s)
    else if s.account != Some(accounts[0]) then AccountSwitched(s, accounts[0])
    else s
  }

  /** The relay session's `accountsChanged`: as above, but without the equality check. */
  function WalletConnectAccountsChanged(s: WalletState, accounts: seq<string>): (r: WalletState)
    ensures accounts == [] ==> r == Disconnect(s)
    ensures accounts != [] ==>
      && r.account == Some(accounts[0])
      && r.storage == s.storage[ConnectedWalletKey := accounts[0]]
      && r.toasts == s.toasts + [AccountChanged(accounts[0])]
      && r == s.(account := r.account, storage := r.storage, toasts := r.toasts)
  {
    if |accounts| == 0 then Disconnect(s) else AccountSwitched(s, accounts[0])
  }

  /** `chainChanged` on either backend: a new chain id, and one reload. */
  function ChainChanged(s: WalletState, chain: nat): (r: WalletState)
    ensures r.chainId == Some(chain) && r.reloads == s.reloads + 1
    ensures r == s.(chainId := r.chainId, reloads := r.reloads)
  {
    s.(chainId := Some(chain), reloads := s.reloads + 1)
  }

  /** The tag start-up reconnects with: only when both stored values are non-empty strings. */
  function ReconnectTag(storage: map<StorageKey, string>): (r: Option<string>)
    ensures r.Some? <==>
      && ConnectedWalletKey in storage && storage[ConnectedWalletKey] != ""
      && WalletTypeKey in storage && storage[WalletTypeKey] != ""
    ensures r.Some? ==> r.value == storage[WalletTypeKey]
  {
    if ConnectedWalletKey in storage && WalletTypeKey in storage
       && storage[ConnectedWalletKey] != "" && storage[WalletTypeKey] != ""
    then Some(storage[WalletTypeKey])
    else None
  }

  /**
   * The mount effect: reconnect with the stored tag, or do nothing. A
   * successful reconnect rewrites only the stored account, since the stored
   * tag is the one it connected with; a failed one leaves storage alone.
   */
  function Reconnect(s: WalletState, env: Environment): (r: WalletState)
    requires WellFormedEnv(env)
    ensures ReconnectTag(s.storage).None? ==> r == s
    ensures ReconnectTag(s.storage).Some? ==>
      var tag := ReconnectTag(s.storage).value;
      && !r.isConnecting
      && (Approves(tag, env) ==>
            && r.walletType == KindOfTag(tag)
            && r.storage == s.storage[ConnectedWalletKey := Reported(tag, env).0])
      && (Fails(tag, env) ==> r.storage == s.storage && r.walletType == s.walletType)
  {
    match ReconnectTag(s.storage)
    case Some(tag) => Connect(s, tag, env)
    case None => s
  }

  /**
   * Application start: mount with the persisted storage, then run the
   * reconnect effect. Nothing is shown unless a known tag is stored beside a
   * non-empty account, and then exactly one notification is.
   */
  function StartUp(persisted: map<StorageKey, string>, env: Environment): (r: WalletState)
    requires WellFormedEnv(env)
    ensures r.reloads == 0 && r.closedSessions == 0 && !r.isConnecting
    ensures ReconnectTag(persisted).None? ==> r == Initial(persisted)
    ensures |r.toasts| ==
      if ReconnectTag(persisted).Some? && KindOfTag(ReconnectTag(persisted).value).Some? then 1 else 0
  {
    Reconnect(Initial(persisted), env)
  }

  // Events and runs

  /** Everything that can happen to the manager. */
  datatype Event =
    | UserConnect(tag: string, env: Environment)
    | UserDisconnect
    | MetaMaskAccounts(accounts: seq<string>)
    | MetaMaskChain(chainIdHex: string)
    | MetaMaskDisconnect
    | WalletConnectAccounts(accounts: seq<string>)
    | WalletConnectChain(chainId: nat)
    | WalletConnectDisconnect

  predicate WellFormedEvent(e: Event) {
    match e
    case UserConnect(_, env) => WellFormedEnv(env)
    case MetaMaskChain(hex) => HexChainId.WellFormed(hex)
    case _ => true
  }

  /**
   * The injected provider's handlers are attached while a provider is held
   * and the kind is MetaMask; a provider is always held once MetaMask
   * connected, and is never released.
   */
  predicate MetaMaskListening(s: WalletState) {
    s.walletType == Some(MetaMask)
  }

  /** The relay session's handlers are attached while a session is held. */
  predicate WalletConnectListening(s: WalletState) {
    s.wcSession
  }

  /**
   * One event; a backend event with no handler attached is not heard. A
   * heard chain change always reloads, and every heard disconnect clears
   * the connection.
   */
  function Step(s: WalletState, e: Event): (r: WalletState)
    requires WellFormedEvent(e)
    ensures !MetaMaskListening(s) && (e.MetaMaskAccounts? || e.MetaMaskChain? || e.MetaMaskDisconnect?) ==>
      r == s
    ensures !WalletConnectListening(s) && (e.WalletConnectAccounts? || e.WalletConnectChain? || e.WalletConnectDisconnect?) ==>
      r == s
    ensures (e.MetaMaskChain? && MetaMaskListening(s)) || (e.WalletConnectChain? && WalletConnectListening(s)) ==>
      r.reloads == s.reloads + 1
    ensures || e.UserDisconnect?
            || (e.MetaMaskDisconnect? && MetaMaskListening(s))
            || (e.WalletConnectDisconnect? && WalletConnectListening(s)) ==>
      r.account.None? && r.walletType.None? && r.toasts == s.toasts + [WalletDisconnected]
  {
    match e
    case UserConnect(tag, env) => Connect(s, tag, env)
    case UserDisconnect => Disconnect(s)
    case MetaMaskAccounts(accounts) =>
      if MetaMaskListening(s) then MetaMaskAccountsChanged(s, accounts) else s
    case MetaMaskChain(hex) =>
      if MetaMaskListening(s) then ChainChanged(s, HexChainId.ParseChainId(hex)) else s
    case MetaMaskDisconnect =>
      if MetaMaskListening(s) then Disconnect(s) else s
    case WalletConnectAccounts(accounts) =>
      if WalletConnectListening(s) then WalletConnectAccountsChanged(s, accounts) else s
    case WalletConnectChain(chain) =>
      if WalletConnectListening(s) then ChainChanged(s, chain) else s
    case WalletConnectDisconnect =>
      if WalletConnectListening(s) then Disconnect(s) else s
  }

  function Run(s: WalletState, events: seq<Event>): WalletState
    requires forall i :: 0 <= i < |events| ==> WellFormedEvent(events[i])
    decreases |events|
  {
    if events == [] then s else Run(Step(s, events[0]), events[1..])
  }

  /**
   * The invariant between transitions: no handshake is in progress, and a
   * recorded wallet kind comes with an account and a chain id that both
   * storage keys mirror; a WalletConnect kind comes with its session.
   */
  predicate Valid(s: WalletState) {
    && !s.isConnecting
    && (s.walletType.Some? ==>
          && s.account.Some? && s.chainId.Some?
          && ConnectedWalletKey in s.storage && s.storage[ConnectedWalletKey] == s.account.value
          && WalletTypeKey in s.storage && s.storage[WalletTypeKey] == Tag(s.walletType.value))
    && (s.walletType == Some(WalletConnect) ==> s.wcSession)
  }

  lemma StartUpValid(persisted: map<StorageKey, string>, env: Environment)
    requires WellFormedEnv(env)
    ensures Valid(StartUp(persisted, env))
  {
    var tag := ReconnectTag(persisted);
    if tag.Some? {
      ConnectValid(Initial(persisted), tag.value, env);
    }
  }

  lemma StepValid(s: WalletState, e: Event)
    requires Valid(s) && WellFormedEvent(e)
    ensures Valid(Step(s, e))
  {
    if e.UserConnect? {
      ConnectValid(s, e.tag, e.env);
    }
  }

  lemma ConnectValid(s: WalletState, tag: string, env: Environment)
    requires Valid(s) && WellFormedEnv(env)
    ensures Valid(Connect(s, tag, env))
  {
  }

  /** Every sequence of events keeps the invariant. */
  lemma {:induction false} RunValid(s: WalletState, events: seq<Event>)
    requires Valid(s)
    requires forall i :: 0 <= i < |events| ==> WellFormedEvent(events[i])
    ensures Valid(Run(s, events))
    decreases |events|
  {
    if events != [] {
      StepValid(s, events[0]);
      RunValid(Step(s, events[0]), events[1..]);
    }
  }

  /** Disconnecting twice ends where disconnecting once does, with one more notification. */
  lemma DisconnectIdempotent(s: WalletState)
    ensures var once := Disconnect(s);
      Disconnect(once) == once.(toasts := once.toasts + [WalletDisconnected])
  {
  }

  /** An empty account list from either backend ends disconnected, whatever the kind was. */
  lemma EmptyAccountsDisconnect(s: WalletState)
    ensures var r := Step(s, MetaMaskAccounts([]));
      MetaMaskListening(s) ==> r.account.None? && r.walletType.None?
    ensures var r := Step(s, WalletConnectAccounts([]));
      WalletConnectListening(s) ==> r.account.None? && r.walletType.None?
  {
  }

  /**
   * The invariant "an account is held exactly when a wallet kind is" does
   * not hold: a relay handshake that fails after creating its session leaves
   * that session's handlers attached, and its `accountsChanged` then sets an
   * account with no wallet kind.
   */
  lemma AccountWithoutKindReachable()
    ensures var env := Environment(false, MetaMaskThrown(""), WalletConnectThrown("", true));
      var r := Run(Initial(map[]), [UserConnect("walletconnect", env), WalletConnectAccounts(["0xabc"])]);
      r.account == Some("0xabc") && r.walletType.None?
  {
    var env := Environment(false, MetaMaskThrown(""), WalletConnectThrown("", true));
    var events := [UserConnect("walletconnect", env), WalletConnectAccounts(["0xabc"])];
    var failed := Connect(Initial(map[]), "walletconnect", env);
    assert failed.wcSession && failed.walletType.None?;
    assert Run(Initial(map[]), events) == Run(failed, events[1..]);
    assert Run(failed, events[1..]) == Run(WalletConnectAccountsChanged(failed, ["0xabc"]), []);
  }

  /**
   * Start-up with both keys stored and a handshake that succeeds connects
   * without user action, to the account the backend reports.
   */
  lemma StartUpReconnects(persisted: map<StorageKey, string>, env: Environment)
    requires WellFormedEnv(env)
    requires ReconnectTag(persisted).Some? && Approves(ReconnectTag(persisted).value, env)
    ensures var r := StartUp(persisted, env);
      && r.account == Some(Reported(persisted[WalletTypeKey], env).0)
      && r.walletType == KindOfTag(persisted[WalletTypeKey])
      && Valid(r)
  {
  }

  /** A failed automatic reconnect keeps the stale storage keys for the next start. */
  lemma FailedReconnectKeepsStorage(persisted: map<StorageKey, string>, env: Environment)
    requires WellFormedEnv(env)
    requires ReconnectTag(persisted).Some? && Fails(ReconnectTag(persisted).value, env)
    ensures var r := StartUp(persisted, env);
      r.storage == persisted && r.account.None? && r.walletType.None?
  {
  }
}
