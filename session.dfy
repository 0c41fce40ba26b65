/**
  The demo page's session handling: the page state held in React hooks, the WalletConnect
  v1 client it shares with the whole module, and the handlers that move both.

  Each handler runs as one atomic step. What the wallet and the relay send back (the URI
  of a created session, the account list, the signature list, an error on the connect
  event) arrives as a parameter, and so does the random request id.
 */
module Session {
  import opened Wrappers

  const ChainIdRelease := "finschia-1"
  const ChainIdBeta := "finschia-beta-1"
  const InitialMsgToSign := "Any text"
  const GetKeyMethod := "keplr_get_key_wallet_connect_v1"
  const SignFreeMessageMethod := "keplr_sign_free_message_wallet_connect_v1"
  /** Request ids are `Math.floor(Math.random() * 100000)`. */
  const RequestIdBound := 100000

  /** A JSON request parameter: a string or null (the page's address before it has one). */
  datatype Param = Str(s: string) | Null

  datatype Request = Request(id: nat, methodName: string, params: seq<Param>)

  /** An element of the wallet's answer to the key request. */
  datatype Account = Account(bech32Address: string)

  /** An element of the wallet's answer to the sign request. */
  datatype SignResponse = SignResponse(signature: string)

  datatype Error =
    | PairingCreationFailed          // createSession rejected
    | ConnectFailed(reason: string)  // the connect event carried this error; the handler rethrows it
    | RequestRejected(reason: string)  // sendCustomRequest rejected (the wallet declined, the relay failed)
    | UndefinedFirstElement          // the wallet answered with an empty array: reading a field of undefined

  /** What the transport did, in order; only for stating the handlers' effects. */
  datatype TransportEvent =
    | Restored(uri: string)
    | Created(uri: string)
    | Killed
    | Sent(request: Request)
    | PeerConnected
    | PeerDisconnected

  function ParamOf(v: Option<string>): Param {
    match v
    case Some(s) => Str(s)
    case None => Null
  }

  /** The request `fetchAddress` sends. */
  function KeyRequest(id: nat, chainId: string): Request {
    Request(id, GetKeyMethod, [Str(chainId)])
  }

  /** The request `handleSignArbitraryMsg` sends. */
  function SignRequest(id: nat, chainId: string, address: Option<string>, msg: string): Request {
    Request(id, SignFreeMessageMethod, [Str(chainId), ParamOf(address), Str(msg)])
  }

  /** `(await sendCustomRequest(...))[0].bech32Address`: the address of the first account
      the wallet returns. A rejected request raises its reason; an empty answer raises on
      the field read. */
  function AddressFrom(answer: Result<seq<Account>, string>): (r: Result<string, Error>)
    ensures r.Success? <==> answer.Success? && answer.value != []
    ensures r.Success? ==> r.value == answer.value[0].bech32Address
    ensures answer.Failure? ==> r == Failure(RequestRejected(answer.error))
    ensures answer.Success? && answer.value == [] ==> r == Failure(UndefinedFirstElement)
  {
    match answer
    case Failure(reason) => Failure(RequestRejected(reason))
    case Success(accounts) =>
      if accounts == [] then Failure(UndefinedFirstElement) else Success(accounts[0].bech32Address)
  }

  /** `const [resp] = await sendCustomRequest(...); resp.signature`: the signature in the
      first element. A rejected request raises its reason; with an empty answer `resp` is
      undefined and the field read raises. */
  function SignatureFrom(answer: Result<seq<SignResponse>, string>): (r: Result<string, Error>)
    ensures r.Success? <==> answer.Success? && answer.value != []
    ensures r.Success? ==> r.value == answer.value[0].signature
    ensures answer.Failure? ==> r == Failure(RequestRejected(answer.error))
    ensures answer.Success? && answer.value == [] ==> r == Failure(UndefinedFirstElement)
  {
    match answer
    case Failure(reason) => Failure(RequestRejected(reason))
    case Success(responses) =>
      if responses == [] then Failure(UndefinedFirstElement) else Success(responses[0].signature)
  }

  /** A field update the page makes only when the wallet's answer could be read. */
  function UpdatedBy(oldValue: Option<string>, r: Result<string, Error>): Option<string> {
    if r.Success? then Some(r.value) else oldValue
  }

  function OutcomeOf(r: Result<string, Error>): Outcome<Error> {
    if r.Success? then Pass else Fail(r.error)
  }

  /** The number of sessions the log leaves live: those created or restored since the
      last kill or disconnect. */
  function LiveSessions(log: seq<TransportEvent>): nat
  {
    if log == [] then 0
    else
      var rest := LiveSessions(log[..|log| - 1]);
      match log[|log| - 1]
      case Created(_) => rest + 1
      case Restored(_) => rest + 1
      case Killed => 0
      case PeerDisconnected => 0
      case _ => rest
  }

  /** One more event: a creation or restore opens a session, a kill or disconnect ends
      them all, and anything else leaves the count alone. */
  lemma LiveSessionsStep(log: seq<TransportEvent>, e: TransportEvent)
    ensures e.Created? || e.Restored? ==> LiveSessions(log + [e]) == LiveSessions(log) + 1
    ensures e.Killed? || e.PeerDisconnected? ==> LiveSessions(log + [e]) == 0
    ensures e.Sent? || e.PeerConnected? ==> LiveSessions(log + [e]) == LiveSessions(log)
  {
    assert (log + [e])[..|log|] == log;
  }

  /** The WalletConnect v1 client as the page sees it: whether a session is connected,
      whether a pairing request is pending (created, not yet answered by the wallet), the
      URI of the current session, and (for the proofs) what the client has done. */
  class Client {
    var connected: bool
    var pending: bool
    var uri: string
    ghost var log: seq<TransportEvent>

    /** The sessions the client's history leaves live. */
    ghost function Live(): nat
      reads this
    {
      LiveSessions(log)
    }

    /** `u` is the URI of a session this client created or restored. */
    ghost predicate Issued(u: string)
      reads this
    {
      Created(u) in log || Restored(u) in log
    }

    /** A session is connected or pending, never both; the history leaves exactly that
        session live (so no session is ever created beside another), and its URI is one
        the client issued. */
    ghost predicate Valid()
      reads this
    {
      && !(connected && pending)
      && Live() == (if connected || pending then 1 else 0)
      && (connected || pending ==> Issued(uri))
    }

    /** The client as the page finds it when it loads: possibly still connected to a
        session restored from an earlier visit. */
    constructor (connected: bool, uri: string)
      ensures Valid()
      ensures this.connected == connected && !pending && this.uri == uri
      ensures log == if connected then [Restored(uri)] else []
    {
      this.connected := connected;
      pending := false;
      this.uri := uri;
      LiveSessionsStep([], Restored(uri));
      log := if connected then [Restored(uri)] else [];
    }

    /** `killSession()`: tears the session down, whatever state it is in. */
    method KillSession()
      modifies this
      ensures Valid()
      ensures !connected && !pending && uri == "" && Live() == 0
      ensures log == old(log) + [Killed]
    {
      connected := false;
      pending := false;
      uri := "";
      LiveSessionsStep(log, Killed);
      log := log + [Killed];
    }

    /** `createSession()`: the client refuses to create a session while one is connected,
        and returns without doing anything while a pairing request is pending. Otherwise
        `created` is the URI of the new pairing session, or `None` when the relay cannot be
        reached and the call rejects. */
    method CreateSession(created: Option<string>) returns (ok: bool)
      requires Valid() && !connected
      modifies this
      ensures Valid() && !connected
      ensures old(pending) ==> ok && pending && uri == old(uri) && log == old(log)
      ensures !old(pending) ==> ok == created.Some?
      ensures !old(pending) && ok ==>
        pending && uri == created.value && log == old(log) + [Created(created.value)]
      ensures !old(pending) && !ok ==> !pending && uri == old(uri) && log == old(log)
    {
      if pending {
        ok := true;
      } else {
        ok := created.Some?;
        if ok {
          pending := true;
          uri := created.value;
          LiveSessionsStep(log, Created(created.value));
          log := log + [Created(created.value)];
        }
      }
    }

    /** `sendCustomRequest(request)`, up to the wallet's answer, which the caller is given. */
    method SendCustomRequest(request: Request)
      modifies this`log
      ensures log == old(log) + [Sent(request)] && Live() == old(Live())
    {
      LiveSessionsStep(log, Sent(request));
      log := log + [Sent(request)];
    }

    /** The wallet approves the pending session; the client then emits "connect". */
    method PeerConnect()
      requires Valid() && pending
      modifies this
      ensures Valid() && connected && !pending && uri == old(uri)
      ensures log == old(log) + [PeerConnected]
    {
      connected := true;
      pending := false;
      LiveSessionsStep(log, PeerConnected);
      assert Issued(uri);
      log := log + [PeerConnected];
      assert Live() == 1;
    }

    /** The wallet ends the session; the client then emits "disconnect". */
    method PeerDisconnect()
      modifies this
      ensures Valid() && !connected && !pending && uri == "" && Live() == 0
      ensures log == old(log) + [PeerDisconnected]
    {
      connected := false;
      pending := false;
      uri := "";
      LiveSessionsStep(log, PeerDisconnected);
      log := log + [PeerDisconnected];
    }
  }

  /** The effect of the session effect (`useEffect(..., [chainId])`) on the client and on
      the page's `sessionUri`, from `before` to `after`. A connected session is killed
      first. A pending pairing is kept, and its URI is shown again. Otherwise a new session
      is created and its URI shown; if creation fails the client stays without a session
      (its URI cleared by the kill, or as it was) and `sessionUri` keeps its value. */
  twostate predicate SessionRecreated(client: Client, created: Option<string>,
                                      before: Option<string>, new after: Option<string>)
    reads client
  {
    var killed := old(client.connected);
    var kept := !old(client.connected) && old(client.pending);
    var newSession := !kept && created.Some?;
    && !client.connected
    && client.log == old(client.log) + (if killed then [Killed] else [])
                                     + (if newSession then [Created(created.value)] else [])
    && (kept ==> client.pending && client.uri == old(client.uri) && after == Some(client.uri))
    && (newSession ==> client.pending && client.uri == created.value && after == Some(client.uri))
    && (!kept && !newSession ==>
          && !client.pending
          && client.uri == (if killed then "" else old(client.uri))
          && after == before)
    && client.Live() == (if client.pending then 1 else 0)
  }

  /** The page state held in React hooks. */
  datatype PageView = PageView(
    chainId: string,
    connect: bool,
    sessionUri: Option<string>,
    address: Option<string>,
    msgToSign: string,
    signature: Option<string>)

  /** The `App` component: its hook state, the shared client, and the QR modal. */
  class Page {
    var chainId: string
    var connect: bool
    var sessionUri: Option<string>
    var address: Option<string>
    var msgToSign: string
    var signature: Option<string>
    /** The URI the QR modal shows, `None` while it is closed. */
    ghost var qrModal: Option<string>
    /** The module-level client every render shares. */
    const client: Client

    function View(): PageView
      reads this
    {
      PageView(chainId, connect, sessionUri, address, msgToSign, signature)
    }

    /** The chain is one of the two the page offers; an address is shown only once a
        connect event has succeeded; the session URI shown is one the client issued. */
    ghost predicate Valid()
      reads this, client
    {
      && client.Valid()
      && (chainId == ChainIdRelease || chainId == ChainIdBeta)
      && (address.Some? ==> connect)
      && (sessionUri.Some? ==> client.Issued(sessionUri.value))
    }

    /** Mounting the page: the initial hook state, then the session effect. */
    constructor (client: Client, created: Option<string>)
      requires client.Valid()
      modifies client
      ensures Valid() && this.client == client
      ensures chainId == ChainIdRelease && !connect && address == None
      ensures msgToSign == InitialMsgToSign && signature == None && qrModal == None
      ensures SessionRecreated(client, created, None, sessionUri)
    {
      chainId := ChainIdRelease;
      connect := false;
      sessionUri := None;
      address := None;
      msgToSign := InitialMsgToSign;
      signature := None;
      qrModal := None;
      this.client := client;
      new;
      var _ := InitSession(created);
    }

    /** The body of the session effect. It fails only when a new session was needed and
        could not be created. */
    method InitSession(created: Option<string>) returns (outcome: Outcome<Error>)
      requires Valid()
      modifies this, client
      ensures Valid() && SessionRecreated(client, created, old(sessionUri), sessionUri)
      ensures View() == old(View()).(sessionUri := sessionUri) && qrModal == old(qrModal)
      ensures outcome == if old(client.pending) || created.Some? then Pass else Fail(PairingCreationFailed)
    {
      if client.connected {
        client.KillSession();
      }
      var ok := client.CreateSession(created);
      if ok {
        sessionUri := Some(client.uri);
        outcome := Pass;
      } else {
        outcome := Fail(PairingCreationFailed);
      }
    }

    /** `setChainId(target)`; React re-runs the session effect only when the value changes. */
    method ChangeChainId(target: string, created: Option<string>) returns (outcome: Outcome<Error>)
      requires Valid() && (target == ChainIdRelease || target == ChainIdBeta)
      modifies this, client
      ensures Valid() && chainId == target && qrModal == old(qrModal)
      ensures old(chainId) == target ==>
        && View() == old(View()) && outcome == Pass
        && client.log == old(client.log) && client.uri == old(client.uri)
        && client.connected == old(client.connected) && client.pending == old(client.pending)
      ensures old(chainId) != target ==>
        && View() == old(View()).(chainId := target, sessionUri := sessionUri)
        && SessionRecreated(client, created, old(sessionUri), sessionUri)
        && outcome == if old(client.pending) || created.Some? then Pass else Fail(PairingCreationFailed)
    {
      if target == chainId {
        outcome := Pass;
      } else {
        chainId := target;
        outcome := InitSession(created);
      }
    }

    /** `changeChainIdToRelease`. */
    method ChangeChainIdToRelease(created: Option<string>) returns (outcome: Outcome<Error>)
      requires Valid()
      modifies this, client
      ensures Valid() && chainId == ChainIdRelease && qrModal == old(qrModal)
      ensures old(chainId) == ChainIdRelease ==>
        && View() == old(View()) && outcome == Pass
        && client.log == old(client.log) && client.uri == old(client.uri)
        && client.connected == old(client.connected) && client.pending == old(client.pending)
      ensures old(chainId) != ChainIdRelease ==>
        && View() == old(View()).(chainId := ChainIdRelease, sessionUri := sessionUri)
        && SessionRecreated(client, created, old(sessionUri), sessionUri)
        && outcome == if old(client.pending) || created.Some? then Pass else Fail(PairingCreationFailed)
    {
      outcome := ChangeChainId(ChainIdRelease, created);
    }

    /** `changeChainIdToBeta`. */
    method ChangeChainIdToBeta(created: Option<string>) returns (outcome: Outcome<Error>)
      requires Valid()
      modifies this, client
      ensures Valid() && chainId == ChainIdBeta && qrModal == old(qrModal)
      ensures old(chainId) == ChainIdBeta ==>
        && View() == old(View()) && outcome == Pass
        && client.log == old(client.log) && client.uri == old(client.uri)
        && client.connected == old(client.connected) && client.pending == old(client.pending)
      ensures old(chainId) != ChainIdBeta ==>
        && View() == old(View()).(chainId := ChainIdBeta, sessionUri := sessionUri)
        && SessionRecreated(client, created, old(sessionUri), sessionUri)
        && outcome == if old(client.pending) || created.Some? then Pass else Fail(PairingCreationFailed)
    {
      outcome := ChangeChainId(ChainIdBeta, created);
    }

    /** `fetchAddress()`: asks the wallet for its key on the current chain. */
    method FetchAddress(id: nat, answer: Result<seq<Account>, string>) returns (r: Result<string, Error>)
      requires id < RequestIdBound
      modifies client`log
      ensures client.log == old(client.log) + [Sent(KeyRequest(id, chainId))]
      ensures r == AddressFrom(answer)
    {
      client.SendCustomRequest(KeyRequest(id, chainId));
      r := AddressFrom(answer);
    }

    /** The "connect" listener. With an error it clears the session URI and rethrows;
        otherwise it closes the QR modal, marks the page connected and shows the address
        the wallet returns. */
    method OnConnect(error: Option<string>, id: nat, answer: Result<seq<Account>, string>)
      returns (outcome: Outcome<Error>)
      requires Valid() && id < RequestIdBound
      modifies this, client`log
      ensures Valid()
      ensures error.Some? ==>
        && View() == old(View()).(sessionUri := None)
        && client.log == old(client.log) && qrModal == old(qrModal)
        && outcome == Fail(ConnectFailed(error.value))
      ensures error.None? ==>
        && View() == old(View()).(connect := true, address := UpdatedBy(old(address), AddressFrom(answer)))
        && client.log == old(client.log) + [Sent(KeyRequest(id, chainId))]
        && qrModal == None
        && outcome == OutcomeOf(AddressFrom(answer))
    {
      if error.Some? {
        sessionUri := None;
        outcome := Fail(ConnectFailed(error.value));
        return;
      }
      qrModal := None;
      connect := true;
      var r := FetchAddress(id, answer);
      if r.Success? {
        address := Some(r.value);
        outcome := Pass;
      } else {
        outcome := Fail(r.error);
      }
    }

    /** The "disconnect" listener: clears the session URI and the address (the page then
        reloads). */
    method OnDisconnect()
      requires Valid()
      modifies this
      ensures Valid()
      ensures View() == old(View()).(sessionUri := None, address := None) && qrModal == old(qrModal)
    {
      sessionUri := None;
      address := None;
    }

    /** `showQRCodeModal()`: when connected, refreshes the address; otherwise opens the QR
        modal on the client's current URI and leaves the page state alone. */
    method ShowQRCodeModal(id: nat, answer: Result<seq<Account>, string>) returns (outcome: Outcome<Error>)
      requires Valid() && id < RequestIdBound
      modifies this, client`log
      ensures Valid()
      ensures old(connect) ==>
        && View() == old(View()).(address := UpdatedBy(old(address), AddressFrom(answer)))
        && client.log == old(client.log) + [Sent(KeyRequest(id, chainId))]
        && qrModal == old(qrModal)
        && outcome == OutcomeOf(AddressFrom(answer))
      ensures !old(connect) ==>
        && View() == old(View())
        && client.log == old(client.log)
        && qrModal == Some(client.uri)
        && outcome == Pass
    {
      if connect {
        var r := FetchAddress(id, answer);
        if r.Success? {
          address := Some(r.value);
          outcome := Pass;
        } else {
          outcome := Fail(r.error);
        }
      } else {
        qrModal := Some(client.uri);
        outcome := Pass;
      }
    }

    /** `handleSignArbitraryMsg()`: asks the wallet to sign the message on the current chain
        with the current address and shows the signature it returns. */
    method HandleSignArbitraryMsg(id: nat, answer: Result<seq<SignResponse>, string>)
      returns (outcome: Outcome<Error>)
      requires Valid() && id < RequestIdBound
      modifies this, client`log
      ensures Valid()
      ensures View() == old(View()).(signature := UpdatedBy(old(signature), SignatureFrom(answer)))
      ensures client.log == old(client.log) + [Sent(SignRequest(id, chainId, address, msgToSign))]
      ensures qrModal == old(qrModal)
      ensures outcome == OutcomeOf(SignatureFrom(answer))
    {
      client.SendCustomRequest(SignRequest(id, chainId, address, msgToSign));
      var r := SignatureFrom(answer);
      if r.Success? {
        signature := Some(r.value);
        outcome := Pass;
      } else {
        outcome := Fail(r.error);
      }
    }

    /** The message input's `onChange`: `setMsgToSign(text)`. */
    method SetMsgToSign(text: string)
      requires Valid()
      modifies this
      ensures Valid()
      ensures View() == old(View()).(msgToSign := text) && qrModal == old(qrModal)
    {
      msgToSign := text;
    }

    /** The debugging button "Kill Session Manually": `client.killSession()`. */
    method KillSessionManually()
      requires Valid()
      modifies client
      ensures Valid()
      ensures !client.connected && !client.pending && client.uri == "" && client.Live() == 0
      ensures client.log == old(client.log) + [Killed]
    {
      client.KillSession();
    }
  }

  /** A page load against a client still connected from an earlier visit, a chain switch
      while the new pairing is pending, then a pairing, a declined and an accepted
      signature, and a disconnect: what a caller can conclude from the handlers'
      contracts alone. */
  method PairSignAndDisconnect(restoredUri: string)
  {
    var client := new Client(true, restoredUri);
    var page := new Page(client, Some("wc:a@1?key=1"));
    assert client.log == [Restored(restoredUri), Killed, Created("wc:a@1?key=1")];
    assert page.sessionUri == Some("wc:a@1?key=1") && client.pending && !client.connected;

    var outcome := page.ChangeChainIdToBeta(Some("wc:b@1?key=2"));
    assert outcome == Pass && page.chainId == ChainIdBeta;
    assert page.sessionUri == Some("wc:a@1?key=1") && client.log == [Restored(restoredUri), Killed, Created("wc:a@1?key=1")];

    client.PeerConnect();
    outcome := page.OnConnect(None, 7, Success([Account("bech32abc")]));
    assert outcome == Pass && page.connect && page.address == Some("bech32abc");
    assert client.log[|client.log| - 1] == Sent(Request(7, GetKeyMethod, [Str(ChainIdBeta)]));

    outcome := page.HandleSignArbitraryMsg(8, Failure("Request rejected"));
    assert outcome == Fail(RequestRejected("Request rejected")) && page.signature == None;

    outcome := page.HandleSignArbitraryMsg(9, Success([SignResponse("sigXYZ")]));
    assert outcome == Pass && page.signature == Some("sigXYZ");
    assert client.log[|client.log| - 1] ==
      Sent(Request(9, SignFreeMessageMethod, [Str(ChainIdBeta), Str("bech32abc"), Str(InitialMsgToSign)]));

    outcome := page.ShowQRCodeModal(10, Success([]));
    assert outcome == Fail(UndefinedFirstElement) && page.address == Some("bech32abc");

    client.PeerDisconnect();
    page.OnDisconnect();
    assert page.sessionUri == None && page.address == None && page.connect;
  }
}
