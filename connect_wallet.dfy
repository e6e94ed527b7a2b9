/**
 * Wallet connection (components/connectWallet/ConnectWallet.tsx): choosing
 * and configuring a connector, the guard on connecting, naming the injected
 * wallet, the wallet buttons, and the automatic reconnection that remembers
 * the last connection in browser storage.
 *
 * Connectors are modelled by their configuration; a call to the wallet
 * context's `connect` is modelled as the ConnectCall value it is given.
 */
module ConnectWallet {
  import opened Wrappers
  import opened Networks

  datatype ConnectionKind = Injected | WalletConnect | WalletLink | Trezor | Ledger | Network | MagicLink

  /** The wallet context, one variant per status; ConnectionError is the status 'error'. */
  datatype Web3Context =
    | NotConnected
    | Connecting(connectionKind: ConnectionKind)
    | ConnectingHWSelectAccount(connectionKind: ConnectionKind)
    | Connected(connectionKind: ConnectionKind, account: string, magicLinkEmail: Option<string>)
    | ConnectedReadonly(connectionKind: ConnectionKind)
    | ConnectionError

  // ---------------------------------------------------------------------
  // Connectors
  // ---------------------------------------------------------------------

  const WalletConnectBridge: string := "https://bridge.walletconnect.org"
  const TrezorManifestEmail: string := "dummy@abc.xyz"
  const TrezorManifestAppUrl: string := "http://localhost:1234"

  /** The `options` argument: the only option passed is the magic-link email. */
  datatype ConnectorOptions = ConnectorOptions(email: Option<string>)

  const NoOptions: ConnectorOptions := ConnectorOptions(None)

  /**
   * A connector, by its configuration. The magic-link connector's api key is
   * the one configured for `apiKeyNetwork`.
   */
  datatype Connector =
    | InjectedConnector(supportedChainIds: set<int>)
    | WalletLinkConnector(url: string, appName: string)
    | WalletConnectConnector(rpc: map<int, string>, bridge: string, qrcode: bool, pollingInterval: nat)
    | TrezorConnector(chainId: int, url: string, pollingInterval: nat, manifestEmail: string,
                      manifestAppUrl: string, networkId: int)
    | LedgerConnector(options: ConnectorOptions, chainId: int, url: string, pollingInterval: nat)
    | MagicLinkConnector(options: ConnectorOptions, apiKeyNetwork: int, networkName: string)
    | NetworkConnector(urls: map<int, string>, defaultChainId: int)

  datatype ConnectorError = UnsupportedChainId | ProviderNetworkMismatch

  /**
   * What the browser supplies: the Infura project id and the chain id the
   * injected provider reports (None when it reports no number).
   */
  datatype Environment = Environment(infuraProjectId: string, injectedChainId: Option<int>)

  /** The connection kind a connector belongs to. */
  function KindOf(c: Connector): ConnectionKind {
    match c
    case InjectedConnector(_) => Injected
    case WalletLinkConnector(_, _) => WalletLink
    case WalletConnectConnector(_, _, _, _) => WalletConnect
    case TrezorConnector(_, _, _, _, _, _) => Trezor
    case LedgerConnector(_, _, _, _) => Ledger
    case MagicLinkConnector(_, _, _) => MagicLink
    case NetworkConnector(_, _) => Network
  }

  /** The connector is configured for `network` and its RPC url. */
  predicate ServesChain(c: Connector, network: int, infuraProjectId: string) {
    var urls := RpcUrls(infuraProjectId);
    && network in urls
    && match c
       case InjectedConnector(ids) => network in ids
       case WalletLinkConnector(url, _) => url == urls[network]
       case WalletConnectConnector(rpc, _, _, _) => network in rpc && rpc[network] == urls[network]
       case TrezorConnector(chainId, url, _, _, _, networkId) =>
         chainId == network && networkId == network && url == urls[network]
       case LedgerConnector(_, chainId, url, _) => chainId == network && url == urls[network]
       case MagicLinkConnector(_, apiKeyNetwork, name) =>
         apiKeyNetwork == network && name == NetworksById(infuraProjectId)[network].name
       case NetworkConnector(netUrls, defaultChainId) =>
         defaultChainId == network && network in netUrls && netUrls[network] == urls[network]
  }

  /**
   * getConnector: fails for a chain id with no RPC url, and for the injected
   * kind when the provider is on another chain; otherwise the connector of
   * the requested kind, configured for the requested network.
   */
  function GetConnector(kind: ConnectionKind, network: int, options: ConnectorOptions, env: Environment)
    : (r: Result<Connector, ConnectorError>)
    ensures r.Err? <==> network !in SupportedChainIds || (kind == Injected && env.injectedChainId != Some(network))
    ensures r.Err? ==> (r.error == UnsupportedChainId <==> network !in SupportedChainIds)
    ensures r.Ok? ==> KindOf(r.value) == kind && ServesChain(r.value, network, env.infuraProjectId)
    ensures r.Ok? && kind == Injected ==> r.value.supportedChainIds == SupportedChainIds
    ensures r.Ok? && (kind == Ledger || kind == MagicLink) ==> r.value.options == options
  {
    var rpcUrls := RpcUrls(env.infuraProjectId);
    if network !in rpcUrls || rpcUrls[network] == "" then Err(UnsupportedChainId)
    else
      match kind
      case Injected =>
        if env.injectedChainId != Some(network) then Err(ProviderNetworkMismatch)
        else Ok(InjectedConnector(NetworksById(env.infuraProjectId).Keys))
      case WalletLink => Ok(WalletLinkConnector(rpcUrls[network], DappName))
      case WalletConnect =>
        Ok(WalletConnectConnector(map[network := rpcUrls[network]], WalletConnectBridge, true, PollingInterval))
      case Trezor =>
        Ok(TrezorConnector(network, rpcUrls[network], PollingInterval, TrezorManifestEmail,
                           TrezorManifestAppUrl, network))
      case Ledger => Ok(LedgerConnector(options, network, rpcUrls[network], PollingInterval))
      case MagicLink =>
        Ok(MagicLinkConnector(options, network, NetworksById(env.infuraProjectId)[network].name))
      case Network =>
        Ok(NetworkConnector(map[network := NetworksById(env.infuraProjectId)[network].infuraUrl], network))
  }

  /** A call to the wallet context's `connect` with a connector and its kind. */
  datatype ConnectCall = ConnectCall(connector: Connector, connectionKind: ConnectionKind)

  /** The statuses from which `connect` acts. */
  predicate MayConnect(ctx: Web3Context) {
    ctx.ConnectionError? || ctx.NotConnected? || ctx.ConnectedReadonly?
  }

  /**
   * connect: the call it makes, if any. A connector that cannot be built is
   * swallowed: no call is made and nothing changes.
   */
  function Connect(web3Context: Option<Web3Context>, kind: ConnectionKind, chainId: int,
                   options: ConnectorOptions, env: Environment): (r: Option<ConnectCall>)
    ensures r.Some? <==>
      web3Context.Some? && MayConnect(web3Context.value) && GetConnector(kind, chainId, options, env).Ok?
    ensures r.Some? ==>
      && r.value.connectionKind == kind
      && KindOf(r.value.connector) == kind
      && ServesChain(r.value.connector, chainId, env.infuraProjectId)
  {
    if web3Context.Some? && MayConnect(web3Context.value) then
      match GetConnector(kind, chainId, options, env)
      case Ok(connector) => Some(ConnectCall(connector, kind))
      case Err(_) => None
    else None
  }

  // ---------------------------------------------------------------------
  // Naming the wallet
  // ---------------------------------------------------------------------

  /** The injected provider object, as far as it is inspected. */
  datatype Provider = Provider(isAlphaWallet: bool, isMetaMask: bool, isTrust: bool,
                               constructorName: string, host: Option<string>)

  datatype Web3Global = Web3Global(currentProvider: Option<Provider>)

  /** The globals of the browser window that are inspected; `sofa` and `cipher` say whether SOFA and __CIPHER__ are defined. */
  datatype BrowserWindow = BrowserWindow(imToken: bool, web3: Option<Web3Global>, sofa: bool, cipher: bool)

  predicate OccursAt(s: string, sub: string, j: int) {
    0 <= j && j + |sub| <= |s| && s[j..j + |sub|] == sub
  }

  /** The first position at or after `from` where `sub` occurs in `s`, or -1. */
  function IndexFrom(s: string, sub: string, from: nat): (r: int)
    ensures r == -1 || (from <= r && OccursAt(s, sub, r))
    ensures forall j :: from <= j && (r == -1 || j < r) ==> !OccursAt(s, sub, j)
    decreases |s| + 1 - from
  {
    if from + |sub| > |s| then -1
    else if s[from..from + |sub|] == sub then from
    else IndexFrom(s, sub, from + 1)
  }

  /** String.prototype.indexOf: the first occurrence of `sub` in `s`, or -1 when there is none. */
  function IndexOf(s: string, sub: string): (r: int)
    ensures r >= -1
    ensures r >= 0 ==> OccursAt(s, sub, r) && forall j :: 0 <= j < r ==> !OccursAt(s, sub, j)
    ensures r == -1 <==> forall j :: !OccursAt(s, sub, j)
  {
    IndexFrom(s, sub, 0)
  }

  /** The provider's host is set and contains `sub`. */
  predicate HostContains(host: Option<string>, sub: string) {
    host.Some? && host.value != "" && IndexOf(host.value, sub) != -1
  }

  predicate HasProvider(w: BrowserWindow) {
    w.web3.Some? && w.web3.value.currentProvider.Some?
  }

  /** The provider's host contains `sub` somewhere (independent of IndexOf). */
  ghost predicate HostMentions(w: BrowserWindow, sub: string) {
    HasProvider(w) && w.web3.value.currentProvider.value.host.Some?
    && exists j :: OccursAt(w.web3.value.currentProvider.value.host.value, sub, j)
  }

  predicate NoProviderFlag(w: BrowserWindow)
    requires HasProvider(w)
  {
    var p := w.web3.value.currentProvider.value;
    !p.isAlphaWallet && !p.isMetaMask && !p.isTrust && !w.sofa && !w.cipher
    && p.constructorName != "EthereumProvider" && p.constructorName != "Web3FrameProvider"
  }

  /**
   * getInjectedWalletKind: a fixed-priority chain of checks on the window and
   * its injected provider.
   */
  function GetInjectedWalletKind(w: BrowserWindow): (r: Option<string>)
    ensures w.imToken ==> r == Some("IMToken")
    ensures r.None? <==> !w.imToken && !HasProvider(w)
    // Each provider check, in order, names the wallet when no earlier check matched.
    ensures !w.imToken && HasProvider(w) ==>
      var p := w.web3.value.currentProvider.value;
      && (p.isAlphaWallet ==> r == Some("Alpha Wallet"))
      && (!p.isAlphaWallet && p.isMetaMask ==> r == Some("MetaMask"))
      && (!p.isAlphaWallet && !p.isMetaMask && p.isTrust ==> r == Some("Trust"))
      && (!p.isAlphaWallet && !p.isMetaMask && !p.isTrust && (w.sofa || w.cipher) ==> r == Some("Coinbase"))
      && (!p.isAlphaWallet && !p.isMetaMask && !p.isTrust && !w.sofa && !w.cipher ==>
            && (p.constructorName == "EthereumProvider" ==> r == Some("Mist"))
            && (p.constructorName == "Web3FrameProvider" ==> r == Some("Parity")))
    // With no flag, the host decides: "infura" first, then "localhost".
    ensures !w.imToken && HasProvider(w) && NoProviderFlag(w) ==>
      && (HostMentions(w, "infura") ==> r == Some("Infura"))
      && (!HostMentions(w, "infura") && HostMentions(w, "localhost") ==> r == Some("Localhost"))
    ensures r == Some("Infura") ==> HostMentions(w, "infura")
    ensures r == Some("Localhost") ==> HostMentions(w, "localhost") && !HostMentions(w, "infura")
    ensures r == Some("Injected provider") <==>
      !w.imToken && HasProvider(w) && NoProviderFlag(w)
      && !HostMentions(w, "infura") && !HostMentions(w, "localhost")
  {
    if w.imToken then Some("IMToken")
    else if !HasProvider(w) then None
    else
      var p := w.web3.value.currentProvider.value;
      if p.isAlphaWallet then Some("Alpha Wallet")
      else if p.isMetaMask then Some("MetaMask")
      else if p.isTrust then Some("Trust")
      else if w.sofa then Some("Coinbase")
      else if w.cipher then Some("Coinbase")
      else if p.constructorName == "EthereumProvider" then Some("Mist")
      else if p.constructorName == "Web3FrameProvider" then Some("Parity")
      else if HostContains(p.host, "infura") then Some("Infura")
      else if HostContains(p.host, "localhost") then Some("Localhost")
      else Some("Injected provider")
  }

  /** getConnectionKindMessage: the wallet name shown for a connection kind. */
  function GetConnectionKindMessage(kind: ConnectionKind, w: BrowserWindow): (r: Option<string>)
    ensures kind == Injected ==> r == GetInjectedWalletKind(w)
    ensures kind != Injected ==> r.Some? && r.value != ""
  {
    match kind
    case Injected => GetInjectedWalletKind(w)
    case WalletConnect => Some("WalletConnect")
    case WalletLink => Some("Coinbase wallet")
    case Trezor => Some("Trezor")
    case Ledger => Some("Ledger")
    case Network => Some("Network")
    case MagicLink => Some("Magic Link")
  }

  /** Every kind other than the injected one has a name of its own. */
  lemma ConnectionKindMessagesDistinct(k1: ConnectionKind, k2: ConnectionKind, w: BrowserWindow)
    requires k1 != Injected && k2 != Injected && k1 != k2
    ensures GetConnectionKindMessage(k1, w) != GetConnectionKindMessage(k2, w)
  {
  }

  // ---------------------------------------------------------------------
  // Wallet buttons
  // ---------------------------------------------------------------------

  datatype SupportedWallet = SupportedWallet(iconName: string, connectionKind: ConnectionKind)

  const SupportedWallets: seq<SupportedWallet> := [
    SupportedWallet("metamask_color", Injected),
    SupportedWallet("wallet_connect_color", WalletConnect),
    SupportedWallet("coinbase_color", WalletLink),
    SupportedWallet("trezor", Trezor),
    SupportedWallet("ledger", Ledger)
  ]

  /** What a button does when clicked: nothing, open the ledger account selection, or connect. */
  datatype ClickHandler = NoHandler | SelectLedgerAccount | ConnectWith(connectionKind: ConnectionKind, chainId: int)

  /** A wallet button: its key, spinner, icon, description (translation key and wallet name) and handler. */
  datatype WalletButton = WalletButton(
    key: ConnectionKind,
    isConnecting: bool,
    iconName: string,
    descriptionKey: string,
    kindMessage: Option<string>,
    onClick: ClickHandler)

  /** The button for one supported wallet, given the wallet context. */
  function WalletButtonFor(ctx: Web3Context, wallet: SupportedWallet, chainId: int, w: BrowserWindow)
    : (b: WalletButton)
    ensures b.key == wallet.connectionKind && b.iconName == wallet.iconName
    ensures b.isConnecting <==> ctx.Connecting? && ctx.connectionKind == wallet.connectionKind
    ensures b.onClick.NoHandler? <==> ctx.Connecting?
    ensures b.onClick.SelectLedgerAccount? <==> !ctx.Connecting? && wallet.connectionKind == Ledger
    ensures b.onClick.ConnectWith? ==> b.onClick == ConnectWith(wallet.connectionKind, chainId)
    ensures b.descriptionKey == if b.isConnecting then "connect-confirm" else "connect-with"
    ensures b.kindMessage == GetConnectionKindMessage(wallet.connectionKind, w)
  {
    var isConnecting := ctx.Connecting? && ctx.connectionKind == wallet.connectionKind;
    WalletButton(
      wallet.connectionKind,
      isConnecting,
      wallet.iconName,
      if isConnecting then "connect-confirm" else "connect-with",
      GetConnectionKindMessage(wallet.connectionKind, w),
      if ctx.Connecting? then NoHandler
      else if wallet.connectionKind == Ledger then SelectLedgerAccount
      else ConnectWith(wallet.connectionKind, chainId))
  }

  /** The list of wallet buttons, one per supported wallet, in order. */
  function WalletButtons(ctx: Web3Context, chainId: int, w: BrowserWindow): (bs: seq<WalletButton>)
    ensures |bs| == |SupportedWallets|
    ensures forall i :: 0 <= i < |bs| ==> bs[i] == WalletButtonFor(ctx, SupportedWallets[i], chainId, w)
  {
    seq(|SupportedWallets|, i requires 0 <= i < |SupportedWallets| =>
      WalletButtonFor(ctx, SupportedWallets[i], chainId, w))
  }

  /**
   * While connecting, no button can be clicked and at most one button, the
   * one of the kind being connected, shows the spinner.
   */
  lemma ButtonsWhileConnecting(ctx: Web3Context, chainId: int, w: BrowserWindow, i: nat, j: nat)
    requires ctx.Connecting?
    requires i < |SupportedWallets| && j < |SupportedWallets|
    ensures var bs := WalletButtons(ctx, chainId, w);
      && bs[i].onClick == NoHandler
      && (bs[i].isConnecting <==> bs[i].key == ctx.connectionKind)
      && (bs[i].isConnecting && bs[j].isConnecting ==> i == j)
  {
    var bs := WalletButtons(ctx, chainId, w);
    assert bs[i] == WalletButtonFor(ctx, SupportedWallets[i], chainId, w);
    assert bs[j] == WalletButtonFor(ctx, SupportedWallets[j], chainId, w);
  }

  /** What clicking a button does: the call `connect` makes for a connect handler. */
  datatype ClickEffect = Nothing | OpenLedgerAccountSelection | Attempt(call: Option<ConnectCall>)

  function Click(h: ClickHandler, ctx: Web3Context, env: Environment): (r: ClickEffect)
    ensures r.Nothing? <==> h.NoHandler?
    ensures r.OpenLedgerAccountSelection? <==> h.SelectLedgerAccount?
    ensures h.ConnectWith? ==>
      && r.Attempt?
      && (r.call.Some? <==> MayConnect(ctx) && GetConnector(h.connectionKind, h.chainId, NoOptions, env).Ok?)
      && (r.call.Some? ==> r.call.value.connectionKind == h.connectionKind
                           && ServesChain(r.call.value.connector, h.chainId, env.infuraProjectId))
  {
    match h
    case NoHandler => Nothing
    case SelectLedgerAccount => OpenLedgerAccountSelection
    case ConnectWith(kind, chainId) => Attempt(Connect(Some(ctx), kind, chainId, NoOptions, env))
  }

  /**
   * Clicking any button: nothing while connecting; the ledger button opens the
   * account selection and never connects; any other button connects only from
   * a status that allows it.
   */
  lemma ClickingAButton(ctx: Web3Context, chainId: int, w: BrowserWindow, env: Environment, i: nat)
    requires i < |SupportedWallets|
    ensures var b := WalletButtons(ctx, chainId, w)[i];
      var effect := Click(b.onClick, ctx, env);
      && (ctx.Connecting? ==> effect == Nothing)
      && (!ctx.Connecting? && b.key == Ledger ==> effect == OpenLedgerAccountSelection)
      && (effect.Attempt? && effect.call.Some? ==>
            MayConnect(ctx) && b.key != Ledger && effect.call.value.connectionKind == b.key
            && ServesChain(effect.call.value.connector, chainId, env.infuraProjectId))
  {
    var b := WalletButtons(ctx, chainId, w)[i];
    assert b == WalletButtonFor(ctx, SupportedWallets[i], chainId, w);
  }

  // ---------------------------------------------------------------------
  // Automatic reconnection
  // ---------------------------------------------------------------------

  /** The remembered connection. */
  datatype AutoConnectRecord = AutoConnectRecord(connectionKind: ConnectionKind, magicLinkEmail: Option<string>)

  /** A storage entry: a record, or text that does not parse as one. */
  datatype StoredEntry = Stored(record: AutoConnectRecord) | Unparsable

  /** A read-only account counts only when it is a non-empty string. */
  predicate Truthy(s: Option<string>) {
    s.Some? && s.value != ""
  }

  predicate IsHardwareWallet(kind: ConnectionKind) {
    kind == Ledger || kind == Trezor
  }

  /** The entry written after an emission that did not throw; None stands for its removal. */
  function PersistedEntry(ctx: Web3Context): (e: Option<StoredEntry>)
    ensures e.Some? <==> ctx.Connected?
    ensures e.Some? ==> e.value.Stored? && e.value.record.connectionKind == ctx.connectionKind
    ensures e.Some? ==>
      e.value.record.magicLinkEmail == if ctx.connectionKind == MagicLink then ctx.magicLinkEmail else None
  {
    if ctx.Connected? then
      Some(Stored(AutoConnectRecord(
        ctx.connectionKind,
        if ctx.connectionKind == MagicLink then ctx.magicLinkEmail else None)))
    else None
  }

  /**
   * Whether the try block of an emission of a not-connected context throws:
   * on the first emission, a stored entry that does not parse or a stored
   * software wallet whose connector cannot be built; otherwise, a read-only
   * account with an unsupported default chain.
   */
  predicate EmissionThrows(firstTime: bool, entry: Option<StoredEntry>, readonlyAccount: Option<string>,
                           chainId: int, env: Environment)
  {
    if firstTime && entry.Some? then
      || entry.value.Unparsable?
      || (&& !IsHardwareWallet(entry.value.record.connectionKind)
          && GetConnector(entry.value.record.connectionKind, chainId,
                          ConnectorOptions(entry.value.record.magicLinkEmail), env).Err?)
    else Truthy(readonlyAccount) && chainId !in SupportedChainIds
  }

  /** Why the body of an emission threw. */
  datatype StepError = ParseError | ConnectorFailed(error: ConnectorError)

  function ConnectOrThrow(kind: ConnectionKind, chainId: int, options: ConnectorOptions, env: Environment)
    : Result<Option<ConnectCall>, StepError>
  {
    match GetConnector(kind, chainId, options, env)
    case Ok(connector) => Ok(Some(ConnectCall(connector, kind)))
    case Err(e) => Err(ConnectorFailed(e))
  }

  /** The connect call of the try block of one emission, or what it threw. */
  function TryConnect(firstTime: bool, entry: Option<StoredEntry>, ctx: Web3Context,
                      readonlyAccount: Option<string>, chainId: int, env: Environment)
    : (r: Result<Option<ConnectCall>, StepError>)
    ensures r.Err? <==> ctx.NotConnected? && EmissionThrows(firstTime, entry, readonlyAccount, chainId, env)
    ensures r.Ok? && r.value.Some? ==>
      var call := r.value.value;
      && ctx.NotConnected?
      && !IsHardwareWallet(call.connectionKind)
      && KindOf(call.connector) == call.connectionKind
      && ServesChain(call.connector, chainId, env.infuraProjectId)
      && (if firstTime && entry.Some?
          then entry.value.Stored? && call.connectionKind == entry.value.record.connectionKind
               && (call.connectionKind == MagicLink ==>
                     call.connector.options == ConnectorOptions(entry.value.record.magicLinkEmail))
          else call.connectionKind == Network && Truthy(readonlyAccount))
  {
    if firstTime && ctx.NotConnected? && entry.Some? then
      match entry.value
      case Unparsable => Err(ParseError)
      case Stored(record) =>
        if IsHardwareWallet(record.connectionKind) then Ok(None)
        else ConnectOrThrow(record.connectionKind, chainId, ConnectorOptions(record.magicLinkEmail), env)
    else if ctx.NotConnected? && Truthy(readonlyAccount) then
      ConnectOrThrow(Network, chainId, NoOptions, env)
    else Ok(None)
  }

  /** The catch block: connect read-only if that is possible; a second failure makes no call. */
  function ReadonlyFallback(ctx: Web3Context, readonlyAccount: Option<string>, chainId: int, env: Environment)
    : (r: Option<ConnectCall>)
    ensures r.Some? <==> ctx.NotConnected? && Truthy(readonlyAccount) && chainId in SupportedChainIds
    ensures r.Some? ==> r.value.connectionKind == Network && KindOf(r.value.connector) == Network
                        && ServesChain(r.value.connector, chainId, env.infuraProjectId)
  {
    if ctx.NotConnected? && Truthy(readonlyAccount) then
      match GetConnector(Network, chainId, NoOptions, env)
      case Ok(connector) => Some(ConnectCall(connector, Network))
      case Err(_) => None
    else None
  }

  /** What one emission does: the connect call made, if any, and the storage entry afterwards. */
  datatype StepResult = StepResult(call: Option<ConnectCall>, entry: Option<StoredEntry>)

  /**
   * One emission of autoConnect. The storage is rewritten only when the try
   * block completes; when it throws, the entry is left as it was.
   */
  function AutoConnectStep(firstTime: bool, entry: Option<StoredEntry>, ctx: Web3Context,
                           readonlyAccount: Option<string>, chainId: int, env: Environment): (r: StepResult)
    ensures r.call.Some? ==>
      && ctx.NotConnected?
      && !IsHardwareWallet(r.call.value.connectionKind)
      && ServesChain(r.call.value.connector, chainId, env.infuraProjectId)
    ensures r.entry ==
      if ctx.NotConnected? && EmissionThrows(firstTime, entry, readonlyAccount, chainId, env)
      then entry else PersistedEntry(ctx)
  {
    match TryConnect(firstTime, entry, ctx, readonlyAccount, chainId, env)
    case Ok(call) => StepResult(call, PersistedEntry(ctx))
    case Err(_) => StepResult(ReadonlyFallback(ctx, readonlyAccount, chainId, env), entry)
  }

  /** Only a not-connected context leads to a connect call. */
  lemma OnlyNotConnectedConnects(firstTime: bool, entry: Option<StoredEntry>, ctx: Web3Context,
                                 readonlyAccount: Option<string>, chainId: int, env: Environment)
    ensures AutoConnectStep(firstTime, entry, ctx, readonlyAccount, chainId, env).call.Some? ==> ctx.NotConnected?
  {
  }

  /** Ledger and Trezor are never connected automatically. */
  lemma HardwareWalletsNeverAutoConnected(firstTime: bool, entry: Option<StoredEntry>, ctx: Web3Context,
                                          readonlyAccount: Option<string>, chainId: int, env: Environment)
    ensures var call := AutoConnectStep(firstTime, entry, ctx, readonlyAccount, chainId, env).call;
      call.Some? ==> !IsHardwareWallet(call.value.connectionKind)
  {
  }

  /**
   * Unless a first emission finds a stored entry (so after the first emission
   * always), the only connection ever made is the read-only one, and only
   * with a read-only account.
   */
  lemma OnlyReadonlyWithoutStoredEntry(firstTime: bool, entry: Option<StoredEntry>, ctx: Web3Context,
                                       readonlyAccount: Option<string>, chainId: int, env: Environment)
    requires !(firstTime && entry.Some?)
    ensures var call := AutoConnectStep(firstTime, entry, ctx, readonlyAccount, chainId, env).call;
      call.Some? ==> call.value.connectionKind == Network && Truthy(readonlyAccount)
  {
  }

  /**
   * On the first emission, a not-connected context with a remembered software
   * wallet reconnects with that kind and its email; the entry is then removed.
   */
  lemma ReconnectsFromStorage(record: AutoConnectRecord, readonlyAccount: Option<string>, chainId: int,
                              env: Environment)
    requires !IsHardwareWallet(record.connectionKind)
    requires GetConnector(record.connectionKind, chainId, ConnectorOptions(record.magicLinkEmail), env).Ok?
    ensures var connector := GetConnector(record.connectionKind, chainId, ConnectorOptions(record.magicLinkEmail), env).value;
      AutoConnectStep(true, Some(Stored(record)), NotConnected, readonlyAccount, chainId, env)
      == StepResult(Some(ConnectCall(connector, record.connectionKind)), None)
  {
  }

  /**
   * A remembered hardware wallet stops the first emission from connecting at
   * all, even with a read-only account; the entry is removed.
   */
  lemma RememberedHardwareWalletBlocksReadonly(record: AutoConnectRecord, readonlyAccount: Option<string>,
                                               chainId: int, env: Environment)
    requires IsHardwareWallet(record.connectionKind)
    ensures AutoConnectStep(true, Some(Stored(record)), NotConnected, readonlyAccount, chainId, env)
      == StepResult(None, None)
  {
  }

  /**
   * Otherwise a not-connected context with a read-only account connects
   * read-only to the default chain, when that chain is supported.
   */
  lemma ReadonlyConnect(firstTime: bool, entry: Option<StoredEntry>, readonlyAccount: Option<string>,
                        chainId: int, env: Environment)
    requires !(firstTime && entry.Some?) && Truthy(readonlyAccount)
    ensures var r := AutoConnectStep(firstTime, entry, NotConnected, readonlyAccount, chainId, env);
      && (r.call.Some? <==> chainId in SupportedChainIds)
      && (r.call.Some? ==> r.call.value.connectionKind == Network
                           && r.call.value.connector == NetworkConnector(map[chainId := RpcUrls(env.infuraProjectId)[chainId]], chainId))
      && (r.call.Some? ==> r.entry == None)
  {
  }

  /**
   * When the first emission throws (the entry does not parse, or its
   * connector cannot be built), the read-only fallback runs and the entry is
   * left as it was.
   */
  lemma ThrowFallsBackToReadonly(entry: StoredEntry, readonlyAccount: Option<string>, chainId: int,
                                 env: Environment)
    requires entry.Stored? ==>
      !IsHardwareWallet(entry.record.connectionKind) && GetConnector(entry.record.connectionKind, chainId, ConnectorOptions(entry.record.magicLinkEmail), env).Err?
    ensures var r := AutoConnectStep(true, Some(entry), NotConnected, readonlyAccount, chainId, env);
      && r.entry == Some(entry)
      && r.call == ReadonlyFallback(NotConnected, readonlyAccount, chainId, env)
      && (r.call.Some? <==> Truthy(readonlyAccount) && chainId in SupportedChainIds)
  {
  }

  /**
   * The entry after any emission is the remembered connection exactly when
   * the context is connected; otherwise it is removed, unless the emission
   * threw, which only a not-connected context can make happen: on the first
   * emission with an entry that does not parse or a software wallet whose
   * connector cannot be built, or later with a read-only account and an
   * unsupported default chain.
   */
  lemma StorageFollowsConnection(firstTime: bool, entry: Option<StoredEntry>, ctx: Web3Context,
                                 readonlyAccount: Option<string>, chainId: int, env: Environment)
    ensures var r := AutoConnectStep(firstTime, entry, ctx, readonlyAccount, chainId, env);
      && (!ctx.NotConnected? ==> r.entry == PersistedEntry(ctx))
      && (ctx.Connected? ==> r.entry.Some? && r.entry.value.Stored?
                             && r.entry.value.record.connectionKind == ctx.connectionKind)
      && (ctx.NotConnected? && !(firstTime && entry.Some?) && !Truthy(readonlyAccount) ==> r.entry == None)
      && (ctx.NotConnected? && firstTime && entry == Some(Unparsable) ==> r.entry == entry)
      && (ctx.NotConnected? && firstTime && entry.Some? && entry.value.Stored? ==>
            var record := entry.value.record;
            r.entry == (if !IsHardwareWallet(record.connectionKind)
                           && GetConnector(record.connectionKind, chainId,
                                           ConnectorOptions(record.magicLinkEmail), env).Err?
                        then entry else None))
      && (ctx.NotConnected? && !(firstTime && entry.Some?) && Truthy(readonlyAccount) ==>
            r.entry == (if chainId in SupportedChainIds then None else entry))
  {
  }

  /**
   * Round trip: what a connected emission remembers is what the first
   * emission of the next session reconnects with (kind, and email for magic
   * link), for every software wallet whose connector can be built.
   */
  lemma RememberedConnectionIsRestored(ctx: Web3Context, firstTime: bool, entry: Option<StoredEntry>,
                                       readonlyAccount: Option<string>, nextReadonly: Option<string>,
                                       chainId: int, env: Environment)
    requires ctx.Connected? && !IsHardwareWallet(ctx.connectionKind)
    requires chainId in SupportedChainIds
    requires ctx.connectionKind == Injected ==> env.injectedChainId == Some(chainId)
    ensures var saved := AutoConnectStep(firstTime, entry, ctx, readonlyAccount, chainId, env).entry;
      var email := if ctx.connectionKind == MagicLink then ctx.magicLinkEmail else None;
      var next := AutoConnectStep(true, saved, NotConnected, nextReadonly, chainId, env);
      && next.call.Some?
      && next.call.value.connectionKind == ctx.connectionKind
      && (ctx.connectionKind == MagicLink ==> next.call.value.connector.options == ConnectorOptions(ctx.magicLinkEmail))
      && next.entry == None
  {
    var saved := AutoConnectStep(firstTime, entry, ctx, readonlyAccount, chainId, env).entry;
    StorageFollowsConnection(firstTime, entry, ctx, readonlyAccount, chainId, env);
    var email := if ctx.connectionKind == MagicLink then ctx.magicLinkEmail else None;
    assert saved == Some(Stored(AutoConnectRecord(ctx.connectionKind, email)));
    ReconnectsFromStorage(AutoConnectRecord(ctx.connectionKind, email), nextReadonly, chainId, env);
  }

  /**
   * The auto-connect subscription: the first-time flag it captures and the
   * browser-storage entry under the key 'autoConnect'.
   */
  class AutoConnect {
    var firstTime: bool
    var storage: Option<StoredEntry>
    const defaultChainId: int

    constructor (defaultChainId: int, storage: Option<StoredEntry>)
      ensures this.firstTime && this.storage == storage && this.defaultChainId == defaultChainId
    {
      this.firstTime := true;
      this.storage := storage;
      this.defaultChainId := defaultChainId;
    }

    /**
     * One emission of the wallet context and the read-only account: returns
     * the connect call made, if any, and rewrites the storage entry.
     */
    method OnEmission(ctx: Web3Context, readonlyAccount: Option<string>, env: Environment)
      returns (call: Option<ConnectCall>)
      modifies this
      ensures !firstTime
      ensures StepResult(call, storage)
        == AutoConnectStep(old(firstTime), old(storage), ctx, readonlyAccount, defaultChainId, env)
    {
      call := None;
      var threw := false;
      var serialized := storage;
      if firstTime && ctx.NotConnected? && serialized.Some? {
        match serialized.value {
          case Unparsable =>
            threw := true;
          case Stored(record) =>
            if !IsHardwareWallet(record.connectionKind) {
              var connector := GetConnector(record.connectionKind, defaultChainId,
                                            ConnectorOptions(record.magicLinkEmail), env);
              if connector.Err? {
                threw := true;
              } else {
                call := Some(ConnectCall(connector.value, record.connectionKind));
              }
            }
        }
      } else if ctx.NotConnected? {
        if Truthy(readonlyAccount) {
          var connector := GetConnector(Network, defaultChainId, NoOptions, env);
          if connector.Err? {
            threw := true;
          } else {
            call := Some(ConnectCall(connector.value, Network));
          }
        }
      }
      if !threw {
        if ctx.Connected? {
          var email := if ctx.connectionKind == MagicLink then ctx.magicLinkEmail else None;
          storage := Some(Stored(AutoConnectRecord(ctx.connectionKind, email)));
        } else {
          storage := None;
        }
      } else if ctx.NotConnected? && Truthy(readonlyAccount) {
        var connector := GetConnector(Network, defaultChainId, NoOptions, env);
        if connector.Ok? {
          call := Some(ConnectCall(connector.value, Network));
        }
      }
      firstTime := false;
    }
  }
}
