/** The wallet button: it runs the host handshake once, then asks the first
    available connector to connect while the wallet is disconnected, and
    renders a loading button, a connect button or the profile menu. The
    wallet's own status (`isConnected`, `address`) and its connector list are
    inputs owned by the wallet library. */
module Wallet {
  import opened Common
  import opened Identity

  /** A wallet connector; only which one is asked matters here. */
  type Connector = string

  datatype RenderState = LoadingButton | ConnectButton | ProfileMenu

  /** Loading until the handshake is over, then Connect while disconnected,
      then the profile menu. */
  function RenderStateOf(isReady: bool, isConnected: bool): (s: RenderState)
    ensures s == LoadingButton <==> !isReady
    ensures s == ConnectButton <==> isReady && !isConnected
    ensures s == ProfileMenu <==> isReady && isConnected
  {
    if !isReady then LoadingButton else if !isConnected then ConnectButton else ProfileMenu
  }

  /** The connector the auto-connect effect asks, if any. */
  function AutoConnectTarget(isReady: bool, isConnected: bool, connectors: seq<Connector>): (r: Option<Connector>)
    ensures r.Some? <==> isReady && !isConnected && |connectors| > 0
    ensures r.Some? ==> r.value == connectors[0]
  {
    if isReady && !isConnected && |connectors| > 0 then Some(connectors[0]) else None
  }

  /** The connector the Connect button asks, if any. */
  function ManualConnectTarget(connectors: seq<Connector>): (r: Option<Connector>)
    ensures r.Some? <==> |connectors| > 0
    ensures r.Some? ==> r.value == connectors[0]
  {
    if |connectors| > 0 then Some(connectors[0]) else None
  }

  function Requests(target: Option<Connector>): seq<Connector> {
    match target
    case Some(c) => [c]
    case None => []
  }

  class WalletConnect {
    var user: Option<Profile>
    var isReady: bool
    /** The `connect({ connector })` calls issued so far, oldest first. */
    var connectRequests: seq<Connector>

    constructor ()
      ensures user == None && !isReady && connectRequests == []
    {
      user, isReady, connectRequests := None, false, [];
    }

    /** The `initSDK` effect. Ready afterwards whether the handshake
        resolved or threw; the user is taken only from a context that has one. */
    method InitSdk(h: Handshake)
      modifies this`user, this`isReady
      ensures isReady
      ensures user == (if h.Resolved? && h.contextUser.Some? then h.contextUser else old(user))
    {
      match h {
        case Resolved(contextUser) =>
          if contextUser.Some? {
            user := contextUser;
          }
          isReady := true;
        case Threw =>
          isReady := true;
      }
    }

    /** One run of the auto-connect effect. */
    method AutoConnect(isConnected: bool, connectors: seq<Connector>)
      modifies this`connectRequests
      ensures connectRequests == old(connectRequests) + Requests(AutoConnectTarget(isReady, isConnected, connectors))
      ensures isConnected || connectors == [] || !isReady ==> connectRequests == old(connectRequests)
    {
      if isReady && !isConnected && |connectors| > 0 {
        connectRequests := connectRequests + [connectors[0]];
      }
    }

    /** Two runs of the auto-connect effect, as when a dependency changes
        before the wallet reports a connection: the request is issued again. */
    method AutoConnectRerun(isConnected: bool, connectors: seq<Connector>)
      modifies this`connectRequests
      ensures isReady && !isConnected && |connectors| > 0 ==>
                connectRequests == old(connectRequests) + [connectors[0], connectors[0]]
      ensures isConnected || connectors == [] || !isReady ==> connectRequests == old(connectRequests)
    {
      AutoConnect(isConnected, connectors);
      AutoConnect(isConnected, connectors);
    }

    /** A click on the Connect button. */
    method ManualConnect(connectors: seq<Connector>)
      modifies this`connectRequests
      ensures connectRequests == old(connectRequests) + Requests(ManualConnectTarget(connectors))
    {
      if |connectors| > 0 {
        connectRequests := connectRequests + [connectors[0]];
      }
    }

    /** Mounting with a disconnected or connected wallet: the handshake, then
        the auto-connect effect once it sees `isReady`. Exactly one request,
        for the first connector, is issued when the wallet is disconnected and
        a connector exists; none otherwise. Afterwards the button is no longer
        the loading one. */
    method Mount(h: Handshake, isConnected: bool, connectors: seq<Connector>)
      requires !isReady && connectRequests == []
      modifies this`user, this`isReady, this`connectRequests
      ensures isReady && RenderStateOf(isReady, isConnected) != LoadingButton
      ensures user == (if h.Resolved? && h.contextUser.Some? then h.contextUser else old(user))
      ensures connectRequests == (if !isConnected && |connectors| > 0 then [connectors[0]] else [])
    {
      InitSdk(h);
      AutoConnect(isConnected, connectors);
    }
  }
}
