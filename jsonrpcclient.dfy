/**
 * The JSON-RPC client engine: request ids and pending replies, the receive
 * buffer, the notification-handler registry, the handshake and
 * authentication state, and the response cache, all owned by one object and
 * changed one event at a time.
 *
 * The transport (NymeaConnection) is represented by its observable state
 * (connected, encrypted, the peer certificate, the current host's uuid) and
 * by the log of frames written to it.  QSettings tokens, pinned PEM files
 * and cache files are maps.  JSON parsing and the MD5 call hash are
 * functions fixed at construction.  Qt signals that matter to callers, and
 * slots invoked on other objects, are appended to an event log.
 */
module JsonRpc {
  import opened Common
  import opened Versions
  import opened Reassembler
  import opened NotificationRegistry
  import opened ResponseCache
  import opened JsonRpcProtocol
  import Fingerprint

  class JsonRpcClient {
    // Fixed collaborators: the JSON parser, the MD5 call hash, the locale name.
    const parse: Parser
    const callHash: CallHash
    const locale: string

    // Transport state (NymeaConnection) and the frames written to it.
    var transportConnected: bool
    var encrypted: bool
    var peerPem: string
    var peerDigest: seq<Fingerprint.Byte>
    var hostUuid: Option<string>
    var sent: seq<Frame>

    // Durable storage: QSettings "jsonTokens", the pinned PEM files, the cache directory.
    var storedTokens: map<string, string>
    var pinnedPems: map<string, string>
    var cacheFiles: CacheFiles

    // Request/reply correlation and the receive buffer.
    var nextId: int
    var replies: map<int, PendingCall>
    var receiveBuffer: string
    var queuedPasses: nat
    ghost var received: seq<Document>

    // Notification handlers and the slot each one is called on.
    var handlers: seq<Entry>
    var handlerSlots: map<Handler, string>

    // Session state.
    var token: string
    var connected: bool
    var initialSetupRequired: bool
    var authenticationRequired: bool
    var pushButtonAuthAvailable: bool
    var authenticated: bool
    var serverUuid: string
    var serverVersion: string
    var username: string
    var jsonRpcVersion: Version
    var experiences: map<string, string>
    var cacheHashes: map<string, string>
    var permissions: Permissions
    var pendingPushButtonTransaction: int
    var cloudConnectionState: string
    var serverQtVersion: string
    var serverQtBuildVersion: string

    var events: seq<Event>

    ghost predicate Valid()
      reads this`nextId, this`replies
    {
      RejectsEmpty(parse) && Keyed(nextId, replies)
    }

    /** The registry holds no repeated pair, and every registered handler has a slot. */
    ghost predicate RegistryValid()
      reads this`handlers, this`handlerSlots
    {
      HandlersKnown(handlers, handlerSlots)
    }

    /** `authenticationRequired()`: the server wants authentication and no token is held. */
    function AuthenticationRequired(): (r: bool)
      reads this`authenticationRequired, this`token
      ensures token != "" ==> !r
      ensures token == "" ==> r == authenticationRequired
    {
      authenticationRequired && token == ""
    }

    /** `ensureServerVersion(v)`: the negotiated protocol is at least `v`. */
    function EnsureServerVersion(v: string): (r: bool)
      reads this`jsonRpcVersion
      ensures r <==> jsonRpcVersion == ParseVersion(v) || Less(ParseVersion(v), jsonRpcVersion)
    {
      AtLeastMeans(jsonRpcVersion, ParseVersion(v));
      AtLeast(jsonRpcVersion, ParseVersion(v))
    }

    constructor (parse: Parser, callHash: CallHash, locale: string,
                 storedTokens: map<string, string>, pinnedPems: map<string, string>, cacheFiles: CacheFiles)
      requires RejectsEmpty(parse)
      ensures Valid() && RegistryValid()
      ensures this.parse == parse && this.callHash == callHash && this.locale == locale
      ensures this.storedTokens == storedTokens && this.pinnedPems == pinnedPems && this.cacheFiles == cacheFiles
      ensures nextId == 0 && replies == map[] && receiveBuffer == [] && queuedPasses == 0
      ensures handlers == [("JSONRPC", ClientItself)] && handlerSlots == map[ClientItself := "notificationReceived"]
      ensures !transportConnected && !connected && !authenticated && token == ""
      ensures sent == [] && events == []
    {
      this.parse := parse;
      this.callHash := callHash;
      this.locale := locale;
      transportConnected := false;
      encrypted := false;
      peerPem := "";
      peerDigest := [];
      hostUuid := None;
      sent := [];
      this.storedTokens := storedTokens;
      this.pinnedPems := pinnedPems;
      this.cacheFiles := cacheFiles;
      nextId := 0;
      replies := map[];
      receiveBuffer := [];
      queuedPasses := 0;
      received := [];
      // registerNotificationHandler(this, "JSONRPC", ...) while the transport is down
      handlers := [("JSONRPC", ClientItself)];
      handlerSlots := map[ClientItself := "notificationReceived"];
      token := "";
      connected := false;
      initialSetupRequired := false;
      authenticationRequired := false;
      pushButtonAuthAvailable := false;
      authenticated := false;
      serverUuid := "";
      serverVersion := "";
      username := "";
      jsonRpcVersion := [];
      experiences := map[];
      cacheHashes := map[];
      permissions := AdminScope;
      pendingPushButtonTransaction := -1;
      cloudConnectionState := "";
      serverQtVersion := "";
      serverQtBuildVersion := "";
      events := [];
    }

    /**
     * `createReply`: a method name that does not split into exactly two
     * '.'-separated parts gets no reply and leaves the id counter alone;
     * any other gets the next id.
     */
    method CreateReply(method': string, params: Document, callback: Callback) returns (reply: Option<PendingCall>)
      modifies this`nextId
      ensures var parts := Split(method', '.');
        |parts| != 2 ==> reply == None && nextId == old(nextId)
      ensures var parts := Split(method', '.');
        |parts| == 2 ==> nextId == old(nextId) + 1 && reply == Some(PendingCall(nextId, parts[0], parts[1], params, callback))
    {
      var parts := Split(method', '.');
      if |parts| != 2 {
        return None;
      }
      nextId := nextId + 1;
      reply := Some(PendingCall(nextId, parts[0], parts[|parts| - 1], params, callback));
    }

    /** `sendRequest`: adds the token and writes the request as one line. */
    method SendRequest(request: Document)
      modifies this`sent
      ensures sent == old(sent) + [TokenFrame(request, token)]
    {
      sent := sent + [TokenFrame(request, token)];
    }

    /**
     * `sendCommand`: a cacheable call whose reply is in the cache under the
     * server's current hash is answered from the cache with queued
     * deliveries and nothing is sent; any other call is recorded as pending
     * under its new id and sent.
     */
    method SendCommand(method': string, params: Document, callback: Callback) returns (commandId: int)
      requires Valid() && ValidMethod(method')
      modifies this`nextId, this`replies, this`sent, this`events
      ensures Valid()
      ensures commandId == nextId
      ensures var parts := Split(method', '.');
        var hit := Lookup(cacheFiles, cacheHashes, method', callHash(method', params, locale));
        && (hit.Some? ==> nextId == old(nextId) + 1 && replies == old(replies) && sent == old(sent)
                          && events == old(events) + CacheHitEvents(callback, commandId, hit.value))
        && (hit.None? ==> Outbox(nextId, replies, sent)
                            == Post(Outbox(old(nextId), old(replies), old(sent)), parts[0], parts[1], params, callback, token)
                          && events == old(events))
    {
      var reply := CreateReply(method', params, callback);
      var call := reply.value;
      var hit := Lookup(cacheFiles, cacheHashes, method', callHash(method', params, locale));
      if hit.Some? {
        events := events + CacheHitEvents(callback, call.commandId, hit.value);
        return call.commandId;
      }
      replies := replies[call.commandId := call];
      SendRequest(RequestMap(call));
      commandId := call.commandId;
    }

    /** The registry's `keys()` copied into a list one key at a time. */
    method CollectNamespaces() returns (namespaces: seq<string>)
      ensures namespaces == Namespaces(handlers)
      ensures Ascending(namespaces) && multiset(namespaces) == KeyBag(handlers)
    {
      var keys := Namespaces(handlers);
      namespaces := [];
      for i := 0 to |keys|
        invariant namespaces == keys[..i]
      {
        namespaces := namespaces + [keys[i]];
      }
      NamespacesAscending(handlers);
    }

    /** `createReply` for one of the client's own "JSONRPC" methods. */
    method CreateClientReply(name: string, params: Document, callback: Callback) returns (call: PendingCall)
      requires '.' !in name
      modifies this`nextId
      ensures nextId == old(nextId) + 1
      ensures call == PendingCall(nextId, "JSONRPC", name, params, callback)
    {
      QualifiedValid("JSONRPC", name);
      var reply := CreateReply(Qualified("JSONRPC", name), params, callback);
      call := reply.value;
    }

    /** `createReply`, recording the reply and `sendRequest`, for one of the client's own methods. */
    method PostClientRequest(name: string, params: Document, callback: Callback)
      requires Valid() && '.' !in name
      modifies this`nextId, this`replies, this`sent
      ensures Valid()
      ensures Outbox(nextId, replies, sent) == Post(Outbox(old(nextId), old(replies), old(sent)), "JSONRPC", name, params, callback, token)
    {
      var call := CreateClientReply(name, params, callback);
      replies := replies[call.commandId := call];
      SendRequest(RequestMap(call));
    }

    /**
     * `setNotificationsEnabled`: while the transport is up, tells the server
     * which namespaces to notify (always including "Users"), or on protocols
     * before 3.1 simply enables notifications.
     */
    method SetNotificationsEnabled()
      requires Valid()
      modifies this`nextId, this`replies, this`sent
      ensures Valid()
      ensures Outbox(nextId, replies, sent)
           == EnableNotifications(Outbox(old(nextId), old(replies), old(sent)), transportConnected, handlers, jsonRpcVersion, token)
    {
      var namespaces := CollectNamespaces();
      if !transportConnected {
        return;
      }
      PostClientRequest("SetNotificationStatus", NotificationStatusParams(namespaces, jsonRpcVersion), OnNotificationStatus);
    }

    /** `getCloudConnectionStatus`: asks whether the server's cloud connection is up. */
    method GetCloudConnectionStatus()
      requires Valid()
      modifies this`nextId, this`replies, this`sent
      ensures Valid()
      ensures Outbox(nextId, replies, sent) == AskCloudStatus(Outbox(old(nextId), old(replies), old(sent)), token)
    {
      PostClientRequest("IsCloudConnected", map[], OnCloudConnected);
    }

    /** `sendCommand` for one of the client's own "JSONRPC" methods. */
    method SendClientCommand(name: string, params: Document, callback: Callback) returns (commandId: int)
      requires Valid() && '.' !in name
      modifies this`nextId, this`replies, this`sent, this`events
      ensures Valid()
      ensures commandId == nextId
      ensures var hit := Lookup(cacheFiles, cacheHashes, Qualified("JSONRPC", name),
                                callHash(Qualified("JSONRPC", name), params, locale));
        && (hit.Some? ==> nextId == old(nextId) + 1 && replies == old(replies) && sent == old(sent)
                          && events == old(events) + CacheHitEvents(callback, commandId, hit.value))
        && (hit.None? ==> Outbox(nextId, replies, sent)
                            == Post(Outbox(old(nextId), old(replies), old(sent)), "JSONRPC", name, params, callback, token)
                          && events == old(events))
    {
      QualifiedValid("JSONRPC", name);
      commandId := SendCommand(Qualified("JSONRPC", name), params, callback);
    }

    /**
     * `registerNotificationHandler`: records the handler for the namespace
     * and the slot it is called on, then renews the notification status.
     * A pair already recorded is left alone.
     */
    method RegisterNotificationHandler(handler: Handler, nameSpace: string, slot: string)
      requires Valid() && RegistryValid()
      modifies this`handlers, this`handlerSlots, this`nextId, this`replies, this`sent
      ensures Valid() && RegistryValid()
      ensures (nameSpace, handler) in old(handlers) ==>
        && handlers == old(handlers) && handlerSlots == old(handlerSlots)
        && nextId == old(nextId) && replies == old(replies) && sent == old(sent)
      ensures (nameSpace, handler) !in old(handlers) ==>
        && handlers == old(handlers) + [(nameSpace, handler)]
        && handlerSlots == old(handlerSlots)[handler := slot]
        && Outbox(nextId, replies, sent)
           == EnableNotifications(Outbox(old(nextId), old(replies), old(sent)), transportConnected, handlers, jsonRpcVersion, token)
    {
      if (nameSpace, handler) in handlers {
        return;
      }
      RegisterIdempotent(handlers, nameSpace, handler);
      handlers := Register(handlers, nameSpace, handler);
      handlerSlots := handlerSlots[handler := slot];
      SetNotificationsEnabled();
    }

    /** `unregisterNotificationHandler`: removes the handler from every namespace and renews the notification status. */
    method UnregisterNotificationHandler(handler: Handler)
      requires Valid() && RegistryValid()
      modifies this`handlers, this`handlerSlots, this`nextId, this`replies, this`sent
      ensures Valid() && RegistryValid()
      ensures handlers == Unregister(old(handlers), handler)
      ensures handlerSlots == old(handlerSlots) - {handler}
      ensures forall ns :: handler !in HandlersFor(handlers, ns)
      ensures Outbox(nextId, replies, sent)
           == EnableNotifications(Outbox(old(nextId), old(replies), old(sent)), transportConnected, handlers, jsonRpcVersion, token)
    {
      UnregisterKeepsNoDuplicates(handlers, handler);
      handlers := Unregister(handlers, handler);
      handlerSlots := handlerSlots - {handler};
      SetNotificationsEnabled();
    }

    /** The client's own requests that go out without the token, written with `toJson()`'s indented layout. */
    method SendUntokened(name: string, params: Document, callback: Callback) returns (commandId: int)
      requires Valid() && '.' !in name
      modifies this`nextId, this`replies, this`sent
      ensures Valid()
      ensures commandId == nextId == old(nextId) + 1
      ensures replies == old(replies)[commandId := PendingCall(commandId, "JSONRPC", name, params, callback)]
      ensures sent == old(sent) + [Frame(RequestMap(PendingCall(commandId, "JSONRPC", name, params, callback)), false)]
      ensures "token" !in sent[|sent| - 1].doc
    {
      var call := CreateClientReply(name, params, callback);
      replies := replies[call.commandId := call];
      sent := sent + [Frame(RequestMap(call), false)];
      commandId := call.commandId;
    }

    /** `authenticate`: asks for a token with username, password and device name. */
    method Authenticate(user: string, password: string, deviceName: string) returns (commandId: int)
      requires Valid()
      modifies this`nextId, this`replies, this`sent
      ensures Valid()
      ensures commandId == nextId == old(nextId) + 1
      ensures var call := PendingCall(commandId, "JSONRPC", "Authenticate",
                                      map["username" := Str(user), "password" := Str(password), "deviceName" := Str(deviceName)],
                                      OnAuthenticate);
        replies == old(replies)[commandId := call] && sent == old(sent) + [Frame(RequestMap(call), false)]
    {
      var params := map["username" := Str(user), "password" := Str(password), "deviceName" := Str(deviceName)];
      commandId := SendUntokened("Authenticate", params, OnAuthenticate);
    }

    /** `createUser`: creates the first user during initial setup. */
    method CreateUser(user: string, password: string) returns (commandId: int)
      requires Valid()
      modifies this`nextId, this`replies, this`sent
      ensures Valid()
      ensures commandId == nextId == old(nextId) + 1
      ensures var call := PendingCall(commandId, "JSONRPC", "CreateUser",
                                      map["username" := Str(user), "password" := Str(password)], OnCreateUser);
        replies == old(replies)[commandId := call] && sent == old(sent) + [Frame(RequestMap(call), false)]
    {
      var params := map["username" := Str(user), "password" := Str(password)];
      commandId := SendUntokened("CreateUser", params, OnCreateUser);
    }

    /** `requestPushButtonAuth`: starts a push-button authentication for the device name. */
    method RequestPushButtonAuth(deviceName: string) returns (commandId: int)
      requires Valid()
      modifies this`nextId, this`replies, this`sent
      ensures Valid()
      ensures commandId == nextId == old(nextId) + 1
      ensures var call := PendingCall(commandId, "JSONRPC", "RequestPushButtonAuth",
                                      map["deviceName" := Str(deviceName)], OnPushButtonAuth);
        replies == old(replies)[commandId := call] && sent == old(sent) + [Frame(RequestMap(call), false)]
    {
      commandId := SendUntokened("RequestPushButtonAuth", map["deviceName" := Str(deviceName)], OnPushButtonAuth);
    }

    /** `setupRemoteAccess`: hands the cloud identity token and user id to the server. */
    method SetupRemoteAccess(idToken: string, userId: string) returns (commandId: int)
      requires Valid()
      modifies this`nextId, this`replies, this`sent, this`events
      ensures Valid()
      ensures commandId == nextId == old(nextId) + 1
    {
      commandId := SendClientCommand("SetupRemoteAccess", map["idToken" := Str(idToken), "userId" := Str(userId)], OnRemoteAccess);
    }

    /** `deployCertificate`: hands the cloud certificate, keys and endpoint to the server. */
    method DeployCertificate(rootCA: string, certificate: string, publicKey: string, privateKey: string, endpoint: string)
      requires Valid()
      modifies this`nextId, this`replies, this`sent, this`events
      ensures Valid()
      ensures nextId == old(nextId) + 1
    {
      var params := map["rootCA" := Str(rootCA), "certificatePEM" := Str(certificate), "publicKey" := Str(publicKey),
                        "privateKey" := Str(privateKey), "endpoint" := Str(endpoint)];
      var commandId := SendClientCommand("SetupCloudConnection", params, OnCertificateDeployed);
    }

    /**
     * `serverQtVersion()`: the version once known; before that, on protocol
     * 4.0 or later, the server is asked for it and an empty text returned.
     */
    method ServerQtVersion() returns (version: string)
      requires Valid()
      modifies this`nextId, this`replies, this`sent, this`events
      ensures Valid()
      ensures version == old(serverQtVersion)
      ensures nextId == old(nextId) + (if version == "" && EnsureServerVersion("4.0") then 1 else 0)
      ensures version != "" || !EnsureServerVersion("4.0") ==>
        replies == old(replies) && sent == old(sent) && events == old(events)
      ensures version == "" && EnsureServerVersion("4.0") ==>
        var hit := Lookup(cacheFiles, cacheHashes, Qualified("JSONRPC", "Version"),
                          callHash(Qualified("JSONRPC", "Version"), map[], locale));
        && (hit.Some? ==> replies == old(replies) && sent == old(sent)
                          && events == old(events) + CacheHitEvents(OnVersions, nextId, hit.value))
        && (hit.None? ==> Outbox(nextId, replies, sent)
                            == Post(Outbox(old(nextId), old(replies), old(sent)), "JSONRPC", "Version", map[], OnVersions, token)
                          && events == old(events))
    {
      if serverQtVersion != "" {
        return serverQtVersion;
      }
      if EnsureServerVersion("4.0") {
        var commandId := SendClientCommand("Version", map[], OnVersions);
      }
      return "";
    }

    /** `getVersionsReply`: records the server's Qt versions. */
    method GetVersionsReply(params: Document)
      modifies this`serverQtVersion, this`serverQtBuildVersion
      ensures serverQtVersion == AsString(Get(params, "qtVersion"))
      ensures serverQtBuildVersion == AsString(Get(params, "qtBuildVersion"))
    {
      serverQtVersion := AsString(Get(params, "qtVersion"));
      serverQtBuildVersion := AsString(Get(params, "qtBuildVersion"));
    }

    /** `acceptCertificate`: the user trusts the presented certificate, which is pinned for the server. */
    method AcceptCertificate(uuid: string, pem: string)
      modifies this`pinnedPems
      ensures pinnedPems == old(pinnedPems)[PemKey(uuid) := pem]
      ensures !PinMismatch(true, pinnedPems, uuid, pem)
    {
      pinnedPems := pinnedPems[PemKey(uuid) := pem];
    }

    /** `tokenExists`: whether a token is stored for the server. */
    method TokenExists(uuid: string) returns (exists': bool)
      ensures exists' <==> uuid in storedTokens
    {
      exists' := uuid in storedTokens;
    }

    /**
     * `processAuthenticate`: on success adopts and stores the token, the user
     * name and the permissions, becomes authenticated and renews the
     * notification status; on failure only reports it.
     */
    method ProcessAuthenticate(params: Document)
      requires Valid()
      modifies this`token, this`username, this`permissions, this`storedTokens, this`authenticated,
               this`events, this`nextId, this`replies, this`sent
      ensures Valid()
      ensures AsBool(Get(params, "success")) ==>
        && token == AsString(Get(params, "token"))
        && username == AsString(Get(params, "username"))
        && permissions == GrantedPermissions(jsonRpcVersion, Get(params, "scopes"))
        && storedTokens == old(storedTokens)[serverUuid := token]
        && authenticated && events == old(events)
        && Outbox(nextId, replies, sent)
           == EnableNotifications(Outbox(old(nextId), old(replies), old(sent)), transportConnected, handlers, jsonRpcVersion, token)
      ensures !AsBool(Get(params, "success")) ==>
        && events == old(events) + [AuthenticationFailed]
        && token == old(token) && username == old(username) && permissions == old(permissions)
        && storedTokens == old(storedTokens) && authenticated == old(authenticated)
        && nextId == old(nextId) && replies == old(replies) && sent == old(sent)
    {
      if AsBool(Get(params, "success")) {
        AdoptToken(params);
        SetNotificationsEnabled();
      } else {
        events := events + [AuthenticationFailed];
      }
    }

    /** A successful authentication: the token, user name and permissions are taken over, the token stored. */
    method AdoptToken(params: Document)
      modifies this`token, this`username, this`permissions, this`storedTokens, this`authenticated
      ensures token == AsString(Get(params, "token"))
      ensures username == AsString(Get(params, "username"))
      ensures permissions == GrantedPermissions(jsonRpcVersion, Get(params, "scopes"))
      ensures storedTokens == old(storedTokens)[serverUuid := token]
      ensures authenticated
    {
      token := AsString(Get(params, "token"));
      username := AsString(Get(params, "username"));
      permissions := GrantedPermissions(jsonRpcVersion, Get(params, "scopes"));
      storedTokens := storedTokens[serverUuid := token];
      authenticated := true;
    }

    /** `processCreateUser`: "UserErrorNoError" ends the initial setup; anything else is reported with its error. */
    method ProcessCreateUser(params: Document)
      modifies this`events, this`initialSetupRequired
      ensures var error := AsString(Get(params, "error"));
        && (error == "UserErrorNoError" ==> events == old(events) + [CreateUserSucceeded] && !initialSetupRequired)
        && (error != "UserErrorNoError" ==> events == old(events) + [CreateUserFailed(error)]
                                            && initialSetupRequired == old(initialSetupRequired))
    {
      var error := AsString(Get(params, "error"));
      if error == "UserErrorNoError" {
        events := events + [CreateUserSucceeded];
        initialSetupRequired := false;
      } else {
        events := events + [CreateUserFailed(error)];
      }
    }

    /** `processRequestPushButtonAuth`: remembers the transaction to wait for, or reports the failure. */
    method ProcessRequestPushButtonAuth(params: Document)
      modifies this`events, this`pendingPushButtonTransaction
      ensures AsBool(Get(params, "success")) ==>
        pendingPushButtonTransaction == AsInt(Get(params, "transactionId")) && events == old(events)
      ensures !AsBool(Get(params, "success")) ==>
        pendingPushButtonTransaction == old(pendingPushButtonTransaction) && events == old(events) + [PushButtonAuthFailed]
    {
      if AsBool(Get(params, "success")) {
        pendingPushButtonTransaction := AsInt(Get(params, "transactionId"));
      } else {
        events := events + [PushButtonAuthFailed];
      }
    }

    /** `isCloudConnectedReply`: records the cloud connection state by name. */
    method IsCloudConnectedReply(params: Document)
      modifies this`cloudConnectionState
      ensures cloudConnectionState == AsString(Get(params, "connectionState"))
    {
      cloudConnectionState := AsString(Get(params, "connectionState"));
    }

    /** `setNotificationsEnabledResponse`: the session counts as connected from the first notification-status reply. */
    method SetNotificationsEnabledResponse()
      modifies this`connected, this`events
      ensures connected
      ensures events == old(events) + (if old(connected) then [] else [ConnectedChanged(true)])
    {
      if !connected {
        connected := true;
        events := events + [ConnectedChanged(true)];
      }
    }

    /**
     * The push-button branch of `notificationReceived`: a finished
     * authentication for the pending transaction adopts and stores the token
     * (or reports the failure); one for another transaction changes nothing.
     */
    method PushButtonAuthFinished(params: Document)
      requires Valid()
      modifies this`pendingPushButtonTransaction, this`token, this`storedTokens, this`initialSetupRequired,
               this`events, this`nextId, this`replies, this`sent
      ensures Valid()
      ensures AsInt(Get(params, "transactionId")) != old(pendingPushButtonTransaction) ==>
        && pendingPushButtonTransaction == old(pendingPushButtonTransaction) && token == old(token)
        && storedTokens == old(storedTokens) && initialSetupRequired == old(initialSetupRequired)
        && events == old(events) && nextId == old(nextId) && replies == old(replies) && sent == old(sent)
      ensures AsInt(Get(params, "transactionId")) == old(pendingPushButtonTransaction) && AsBool(Get(params, "success")) ==>
        && pendingPushButtonTransaction == -1
        && token == AsString(Get(params, "token"))
        && storedTokens == old(storedTokens)[serverUuid := token]
        && !initialSetupRequired && events == old(events)
        && Outbox(nextId, replies, sent)
           == EnableNotifications(Outbox(old(nextId), old(replies), old(sent)), transportConnected, handlers, jsonRpcVersion, token)
      ensures AsInt(Get(params, "transactionId")) == old(pendingPushButtonTransaction) && !AsBool(Get(params, "success")) ==>
        && pendingPushButtonTransaction == -1
        && events == old(events) + [PushButtonAuthFailed]
        && token == old(token) && storedTokens == old(storedTokens) && initialSetupRequired == old(initialSetupRequired)
        && nextId == old(nextId) && replies == old(replies) && sent == old(sent)
    {
      if AsInt(Get(params, "transactionId")) != pendingPushButtonTransaction {
        return;
      }
      pendingPushButtonTransaction := -1;
      if AsBool(Get(params, "success")) {
        token := AsString(Get(params, "token"));
        storedTokens := storedTokens[serverUuid := token];
        initialSetupRequired := false;
        SetNotificationsEnabled();
      } else {
        events := events + [PushButtonAuthFailed];
      }
    }

    /**
     * `notificationReceived`, the client's own handler for the "JSONRPC"
     * namespace: push-button results and cloud state changes; any other
     * notification changes nothing.
     */
    method NotificationReceived(notification: Document)
      requires Valid()
      modifies this`pendingPushButtonTransaction, this`token, this`storedTokens, this`initialSetupRequired,
               this`events, this`cloudConnectionState, this`nextId, this`replies, this`sent
      ensures Valid()
      ensures old(events) <= events
      ensures AsString(Get(notification, "notification")) == "JSONRPC.CloudConnectedChanged" ==>
        cloudConnectionState == AsString(Get(AsDocument(Get(notification, "params")), "connectionState"))
      ensures AsString(Get(notification, "notification")) != "JSONRPC.PushButtonAuthFinished" ==>
        && pendingPushButtonTransaction == old(pendingPushButtonTransaction) && token == old(token)
        && storedTokens == old(storedTokens) && initialSetupRequired == old(initialSetupRequired)
        && events == old(events) && nextId == old(nextId) && replies == old(replies) && sent == old(sent)
      ensures AsString(Get(notification, "notification")) != "JSONRPC.CloudConnectedChanged" ==>
        cloudConnectionState == old(cloudConnectionState)
    {
      var name := AsString(Get(notification, "notification"));
      var params := AsDocument(Get(notification, "params"));
      if name == "JSONRPC.PushButtonAuthFinished" {
        PushButtonAuthFinished(params);
        return;
      }
      if name == "JSONRPC.CloudConnectedChanged" {
        cloudConnectionState := AsString(Get(params, "connectionState"));
      }
    }

    /**
     * The certificate step of `helloReply`: a first certificate is pinned, a
     * changed one makes the client disconnect and ask the user to verify it,
     * with the new certificate's fingerprint.
     */
    method VerifyCertificate() returns (accepted: bool)
      modifies this`pinnedPems, this`events
      ensures accepted == !PinMismatch(encrypted, old(pinnedPems), serverUuid, peerPem)
      ensures PinNew(encrypted, old(pinnedPems), serverUuid) ==>
        pinnedPems == old(pinnedPems)[PemKey(serverUuid) := peerPem] && events == old(events) + [NewSslCertificate]
      ensures PinMismatch(encrypted, old(pinnedPems), serverUuid, peerPem) ==>
        && pinnedPems == old(pinnedPems)
        && events == old(events) + [DisconnectRequested,
                                    VerifyConnectionCertificate(serverUuid, Fingerprint.Fingerprint(peerDigest), peerPem)]
      ensures !PinNew(encrypted, old(pinnedPems), serverUuid) && !PinMismatch(encrypted, old(pinnedPems), serverUuid, peerPem) ==>
        pinnedPems == old(pinnedPems) && events == old(events)
    {
      if !encrypted {
        return true;
      }
      var key := PemKey(serverUuid);
      if key !in pinnedPems {
        events := events + [NewSslCertificate];
        pinnedPems := pinnedPems[key := peerPem];
        return true;
      }
      if peerPem != pinnedPems[key] {
        var fingerprint := Fingerprint.FormatFingerprint(peerDigest);
        events := events + [DisconnectRequested, VerifyConnectionCertificate(serverUuid, fingerprint, peerPem)];
        return false;
      }
      return true;
    }

    /** The last step of `helloReply`: see `FinishHandshake`. */
    method CompleteHandshake()
      requires Valid()
      modifies this`token, this`authenticated, this`nextId, this`replies, this`sent
      ensures Valid()
      ensures Session(token, authenticated, Outbox(nextId, replies, sent))
           == FinishHandshake(initialSetupRequired, authenticationRequired, StoredToken(storedTokens, serverUuid),
                              Session(old(token), old(authenticated), Outbox(old(nextId), old(replies), old(sent))),
                              transportConnected, handlers, jsonRpcVersion)
    {
      if initialSetupRequired {
        return;
      }
      if authenticationRequired {
        token := StoredToken(storedTokens, serverUuid);
        if token == "" {
          return;
        }
        authenticated := true;
      }
      SetNotificationsEnabled();
      GetCloudConnectionStatus();
    }

    /** The first part of `helloReply`, done before any check. */
    method RecordHello(params: Document)
      modifies this`initialSetupRequired, this`authenticationRequired, this`pushButtonAuthAvailable,
               this`serverUuid, this`serverVersion, this`experiences, this`jsonRpcVersion
      ensures initialSetupRequired == AsBool(Get(params, "initialSetupRequired"))
      ensures authenticationRequired == AsBool(Get(params, "authenticationRequired"))
      ensures pushButtonAuthAvailable == AsBool(Get(params, "pushButtonAuthAvailable"))
      ensures serverUuid == AsString(Get(params, "uuid")) && serverVersion == AsString(Get(params, "version"))
      ensures experiences == PairTable(AsList(Get(params, "experiences")), "name", "version")
      ensures jsonRpcVersion == ParseVersion(ProtocolVersion(AsString(Get(params, "protocol version"))))
    {
      initialSetupRequired := AsBool(Get(params, "initialSetupRequired"));
      authenticationRequired := AsBool(Get(params, "authenticationRequired"));
      pushButtonAuthAvailable := AsBool(Get(params, "pushButtonAuthAvailable"));
      serverUuid := AsString(Get(params, "uuid"));
      serverVersion := AsString(Get(params, "version"));
      experiences := ReadPairs(AsList(Get(params, "experiences")), "name", "version");
      jsonRpcVersion := ParseVersion(ProtocolVersion(AsString(Get(params, "protocol version"))));
    }

    /** The part of `helloReply` after the checks: cache hashes, permissions, user, host uuid. */
    method AcceptServer(params: Document)
      modifies this`cacheHashes, this`permissions, this`username, this`events, this`hostUuid
      ensures cacheHashes == PairTable(AsList(Get(params, "cacheHashes")), "method", "hash")
      ensures permissions == GrantedPermissions(jsonRpcVersion, Get(params, "permissionScopes"))
      ensures username == AsString(Get(params, "username"))
      ensures hostUuid == (if old(hostUuid).None? then Some(serverUuid) else old(hostUuid))
      ensures events == old(events) + [HandshakeReceived]
    {
      cacheHashes := ReadPairs(AsList(Get(params, "cacheHashes")), "method", "hash");
      permissions := GrantedPermissions(jsonRpcVersion, Get(params, "permissionScopes"));
      username := AsString(Get(params, "username"));
      events := events + [HandshakeReceived];
      if hostUuid.None? {
        hostUuid := Some(serverUuid);
      }
    }

    /** `AcceptServer` followed by `CompleteHandshake`. */
    method AcceptAndComplete(params: Document)
      requires Valid()
      modifies this`cacheHashes, this`permissions, this`username, this`events, this`hostUuid,
               this`token, this`authenticated, this`nextId, this`replies, this`sent
      ensures Valid()
      ensures cacheHashes == PairTable(AsList(Get(params, "cacheHashes")), "method", "hash")
      ensures permissions == GrantedPermissions(jsonRpcVersion, Get(params, "permissionScopes"))
      ensures username == AsString(Get(params, "username"))
      ensures hostUuid == (if old(hostUuid).None? then Some(serverUuid) else old(hostUuid))
      ensures events == old(events) + [HandshakeReceived]
      ensures Session(token, authenticated, Outbox(nextId, replies, sent))
           == FinishHandshake(initialSetupRequired, authenticationRequired, StoredToken(storedTokens, serverUuid),
                              Session(old(token), old(authenticated), Outbox(old(nextId), old(replies), old(sent))),
                              transportConnected, handlers, jsonRpcVersion)
    {
      AcceptServer(params);
      CompleteHandshake();
    }

    /** The certificate check of `helloReply` and, when it passes, the rest of the handshake. */
    method VerifyAndAccept(params: Document)
      requires Valid()
      modifies this`events, this`pinnedPems, this`cacheHashes, this`permissions, this`username, this`hostUuid,
               this`token, this`authenticated, this`nextId, this`replies, this`sent
      ensures Valid()
      ensures PinMismatch(encrypted, old(pinnedPems), serverUuid, peerPem) ==>
        && unchanged(this`cacheHashes, this`permissions, this`username, this`hostUuid, this`token,
                     this`authenticated, this`nextId, this`replies, this`sent, this`pinnedPems)
        && events == old(events) + [DisconnectRequested,
                                    VerifyConnectionCertificate(serverUuid, Fingerprint.Fingerprint(peerDigest), peerPem)]
      ensures !PinMismatch(encrypted, old(pinnedPems), serverUuid, peerPem) ==>
        && pinnedPems == (if PinNew(encrypted, old(pinnedPems), serverUuid) then old(pinnedPems)[PemKey(serverUuid) := peerPem]
                          else old(pinnedPems))
        && events == old(events) + (if PinNew(encrypted, old(pinnedPems), serverUuid) then [NewSslCertificate] else [])
                                 + [HandshakeReceived]
        && cacheHashes == PairTable(AsList(Get(params, "cacheHashes")), "method", "hash")
        && permissions == GrantedPermissions(jsonRpcVersion, Get(params, "permissionScopes"))
        && username == AsString(Get(params, "username"))
        && hostUuid == (if old(hostUuid).None? then Some(serverUuid) else old(hostUuid))
        && Session(token, authenticated, Outbox(nextId, replies, sent))
           == FinishHandshake(initialSetupRequired, authenticationRequired, StoredToken(storedTokens, serverUuid),
                              Session(old(token), old(authenticated), Outbox(old(nextId), old(replies), old(sent))),
                              transportConnected, handlers, jsonRpcVersion)
    {
      var accepted := VerifyCertificate();
      if !accepted {
        return;
      }
      AcceptAndComplete(params);
    }

    /** The checks of `helloReply` on what was recorded, and what follows when they pass. */
    method HelloChecks(params: Document)
      requires Valid()
      modifies this`events, this`pinnedPems, this`cacheHashes, this`permissions, this`username, this`hostUuid,
               this`token, this`authenticated, this`nextId, this`replies, this`sent
      ensures Valid()
      ensures CheckVersion(jsonRpcVersion) != Supported || PinMismatch(encrypted, old(pinnedPems), serverUuid, peerPem) ==>
        && unchanged(this`cacheHashes, this`permissions, this`username, this`hostUuid, this`token,
                     this`authenticated, this`nextId, this`replies, this`sent, this`pinnedPems)
      ensures CheckVersion(jsonRpcVersion) == BelowMinimum ==> events == old(events) + [InvalidMinimumVersion(jsonRpcVersion)]
      ensures CheckVersion(jsonRpcVersion) == AboveMaximumMajor ==> events == old(events) + [InvalidMaximumVersion(jsonRpcVersion)]
      ensures CheckVersion(jsonRpcVersion) == Supported && PinMismatch(encrypted, old(pinnedPems), serverUuid, peerPem) ==>
        events == old(events) + [DisconnectRequested,
                                 VerifyConnectionCertificate(serverUuid, Fingerprint.Fingerprint(peerDigest), peerPem)]
      ensures CheckVersion(jsonRpcVersion) == Supported && !PinMismatch(encrypted, old(pinnedPems), serverUuid, peerPem) ==>
        && pinnedPems == (if PinNew(encrypted, old(pinnedPems), serverUuid) then old(pinnedPems)[PemKey(serverUuid) := peerPem]
                          else old(pinnedPems))
        && events == old(events) + (if PinNew(encrypted, old(pinnedPems), serverUuid) then [NewSslCertificate] else [])
                                 + [HandshakeReceived]
        && cacheHashes == PairTable(AsList(Get(params, "cacheHashes")), "method", "hash")
        && permissions == GrantedPermissions(jsonRpcVersion, Get(params, "permissionScopes"))
        && username == AsString(Get(params, "username"))
        && hostUuid == (if old(hostUuid).None? then Some(serverUuid) else old(hostUuid))
        && Session(token, authenticated, Outbox(nextId, replies, sent))
           == FinishHandshake(initialSetupRequired, authenticationRequired, StoredToken(storedTokens, serverUuid),
                              Session(old(token), old(authenticated), Outbox(old(nextId), old(replies), old(sent))),
                              transportConnected, handlers, jsonRpcVersion)
    {
      var check := CheckVersion(jsonRpcVersion);
      if check == BelowMinimum {
        events := events + [InvalidMinimumVersion(jsonRpcVersion)];
        return;
      }
      if check == AboveMaximumMajor {
        events := events + [InvalidMaximumVersion(jsonRpcVersion)];
        return;
      }
      VerifyAndAccept(params);
    }

    /**
     * `helloReply`: records what the server announced; refuses protocol
     * versions below 5.0 or with a major version above 6, and a changed
     * pinned certificate, before anything else of the session is touched;
     * otherwise takes the cache hashes, permissions and user name, adopts the
     * server uuid for a host that has none, and completes the handshake.
     */
    method HelloReply(params: Document)
      requires Valid()
      modifies this`initialSetupRequired, this`authenticationRequired, this`pushButtonAuthAvailable,
               this`serverUuid, this`serverVersion, this`experiences, this`jsonRpcVersion, this`events,
               this`pinnedPems, this`cacheHashes, this`permissions, this`username, this`hostUuid,
               this`token, this`authenticated, this`nextId, this`replies, this`sent
      ensures Valid()
      ensures initialSetupRequired == AsBool(Get(params, "initialSetupRequired"))
      ensures authenticationRequired == AsBool(Get(params, "authenticationRequired"))
      ensures pushButtonAuthAvailable == AsBool(Get(params, "pushButtonAuthAvailable"))
      ensures serverUuid == AsString(Get(params, "uuid")) && serverVersion == AsString(Get(params, "version"))
      ensures experiences == PairTable(AsList(Get(params, "experiences")), "name", "version")
      ensures jsonRpcVersion == ParseVersion(ProtocolVersion(AsString(Get(params, "protocol version"))))
      ensures CheckVersion(jsonRpcVersion) != Supported || PinMismatch(encrypted, old(pinnedPems), serverUuid, peerPem) ==>
        && cacheHashes == old(cacheHashes) && permissions == old(permissions) && username == old(username)
        && hostUuid == old(hostUuid) && token == old(token) && authenticated == old(authenticated)
        && nextId == old(nextId) && replies == old(replies) && sent == old(sent) && pinnedPems == old(pinnedPems)
      ensures CheckVersion(jsonRpcVersion) == BelowMinimum ==> events == old(events) + [InvalidMinimumVersion(jsonRpcVersion)]
      ensures CheckVersion(jsonRpcVersion) == AboveMaximumMajor ==> events == old(events) + [InvalidMaximumVersion(jsonRpcVersion)]
      ensures CheckVersion(jsonRpcVersion) == Supported && PinMismatch(encrypted, old(pinnedPems), serverUuid, peerPem) ==>
        events == old(events) + [DisconnectRequested,
                                 VerifyConnectionCertificate(serverUuid, Fingerprint.Fingerprint(peerDigest), peerPem)]
      ensures CheckVersion(jsonRpcVersion) == Supported && !PinMismatch(encrypted, old(pinnedPems), serverUuid, peerPem) ==>
        && pinnedPems == (if PinNew(encrypted, old(pinnedPems), serverUuid) then old(pinnedPems)[PemKey(serverUuid) := peerPem]
                          else old(pinnedPems))
        && events == old(events) + (if PinNew(encrypted, old(pinnedPems), serverUuid) then [NewSslCertificate] else [])
                                 + [HandshakeReceived]
        && cacheHashes == PairTable(AsList(Get(params, "cacheHashes")), "method", "hash")
        && permissions == GrantedPermissions(jsonRpcVersion, Get(params, "permissionScopes"))
        && username == AsString(Get(params, "username"))
        && hostUuid == (if old(hostUuid).None? then Some(serverUuid) else old(hostUuid))
        && Session(token, authenticated, Outbox(nextId, replies, sent))
           == FinishHandshake(initialSetupRequired, authenticationRequired, StoredToken(storedTokens, serverUuid),
                              Session(old(token), old(authenticated), Outbox(old(nextId), old(replies), old(sent))),
                              transportConnected, handlers, jsonRpcVersion)
    {
      RecordHello(params);
      HelloChecks(params);
    }

    /** An `unauthorized` status: the token is dropped, also from storage, and authentication is required again. */
    method RejectToken()
      modifies this`authenticationRequired, this`token, this`storedTokens, this`authenticated
      ensures AuthenticationRequired() && !authenticated
      ensures storedTokens == old(storedTokens)[serverUuid := ""]
    {
      authenticationRequired := true;
      token := "";
      storedTokens := storedTokens[serverUuid := token];
      authenticated := false;
    }

    /** A failed hello: ids start over and the hello is repeated without a locale. */
    method RetryHello()
      requires Valid()
      modifies this`nextId, this`replies, this`sent, this`events
      ensures Valid()
      ensures var hit := Lookup(cacheFiles, cacheHashes, Qualified("JSONRPC", "Hello"),
                                callHash(Qualified("JSONRPC", "Hello"), map[], locale));
        && (hit.None? ==> Outbox(nextId, replies, sent) == Post(Outbox(0, old(replies), old(sent)), "JSONRPC", "Hello", map[], OnHello, token)
                          && events == old(events))
        && (hit.Some? ==> nextId == 1 && replies == old(replies) && sent == old(sent)
                          && events == old(events) + CacheHitEvents(OnHello, 1, hit.value))
    {
      nextId := 0;
      var commandId := SendClientCommand("Hello", map[], OnHello);
    }

    /** The slot of another object receiving a reply: it is called when it has a caller and a name. */
    method InvokeCaller(callback: Callback, commandId: int, params: Document)
      modifies this`events
      ensures events == old(events) + (if Delivered(callback) then [CallbackInvoked(callback, commandId, params)] else [])
    {
      if Delivered(callback) {
        events := events + [CallbackInvoked(callback, commandId, params)];
      }
    }

    /** Calls the callback of a reply: one of the client's own slots, or a slot of another object. */
    method DeliverReply(callback: Callback, commandId: int, params: Document)
      requires Valid()
      modifies this`initialSetupRequired, this`authenticationRequired, this`pushButtonAuthAvailable,
               this`serverUuid, this`serverVersion, this`experiences, this`jsonRpcVersion, this`events,
               this`pinnedPems, this`cacheHashes, this`permissions, this`username, this`hostUuid,
               this`token, this`authenticated, this`nextId, this`replies, this`sent, this`storedTokens,
               this`pendingPushButtonTransaction, this`connected, this`cloudConnectionState,
               this`serverQtVersion, this`serverQtBuildVersion
      ensures Valid()
      ensures old(events) <= events
      ensures External(callback) ==>
        && events == old(events) + (if Delivered(callback) then [CallbackInvoked(callback, commandId, params)] else [])
        && Outbox(nextId, replies, sent) == Outbox(old(nextId), old(replies), old(sent))
        && token == old(token) && authenticationRequired == old(authenticationRequired)
        && authenticated == old(authenticated) && storedTokens == old(storedTokens)
    {
      if External(callback) {
        InvokeCaller(callback, commandId, params);
      } else {
        OwnReply(callback, params);
      }
    }

    /** One of the client's own reply slots. */
    method OwnReply(callback: Callback, params: Document)
      requires Valid() && !External(callback)
      modifies this`initialSetupRequired, this`authenticationRequired, this`pushButtonAuthAvailable,
               this`serverUuid, this`serverVersion, this`experiences, this`jsonRpcVersion, this`events,
               this`pinnedPems, this`cacheHashes, this`permissions, this`username, this`hostUuid,
               this`token, this`authenticated, this`nextId, this`replies, this`sent, this`storedTokens,
               this`pendingPushButtonTransaction, this`connected, this`cloudConnectionState,
               this`serverQtVersion, this`serverQtBuildVersion
      ensures Valid()
      ensures old(events) <= events
    {
      if callback.OnHello? || callback.OnAuthenticate? || callback.OnPushButtonAuth? || callback.OnCreateUser? {
        HandshakeReply(callback, params);
      } else {
        ServiceReply(callback, params);
      }
    }

    /** The client's slots for the replies of the handshake and of the login. */
    method HandshakeReply(callback: Callback, params: Document)
      requires Valid() && (callback.OnHello? || callback.OnAuthenticate? || callback.OnPushButtonAuth? || callback.OnCreateUser?)
      modifies this`initialSetupRequired, this`authenticationRequired, this`pushButtonAuthAvailable,
               this`serverUuid, this`serverVersion, this`experiences, this`jsonRpcVersion, this`events,
               this`pinnedPems, this`cacheHashes, this`permissions, this`username, this`hostUuid,
               this`token, this`authenticated, this`nextId, this`replies, this`sent, this`storedTokens,
               this`pendingPushButtonTransaction, this`connected, this`cloudConnectionState,
               this`serverQtVersion, this`serverQtBuildVersion
      ensures Valid()
      ensures old(events) <= events
    {
      match callback
      case OnHello => HelloReply(params);
      case OnAuthenticate => ProcessAuthenticate(params);
      case OnPushButtonAuth => ProcessRequestPushButtonAuth(params);
      case OnCreateUser => ProcessCreateUser(params);
    }

    /** The client's slots for the replies of the calls it makes once connected. */
    method ServiceReply(callback: Callback, params: Document)
      requires Valid() && (callback.OnNotificationStatus? || callback.OnCloudConnected? || callback.OnVersions? || callback.OnRemoteAccess? || callback.OnCertificateDeployed?)
      modifies this`initialSetupRequired, this`authenticationRequired, this`pushButtonAuthAvailable,
               this`serverUuid, this`serverVersion, this`experiences, this`jsonRpcVersion, this`events,
               this`pinnedPems, this`cacheHashes, this`permissions, this`username, this`hostUuid,
               this`token, this`authenticated, this`nextId, this`replies, this`sent, this`storedTokens,
               this`pendingPushButtonTransaction, this`connected, this`cloudConnectionState,
               this`serverQtVersion, this`serverQtBuildVersion
      ensures Valid()
      ensures old(events) <= events
    {
      match callback
      case OnNotificationStatus => SetNotificationsEnabledResponse();
      case OnCloudConnected => IsCloudConnectedReply(params);
      case OnVersions => GetVersionsReply(params);
      case OnRemoteAccess =>
      case OnCertificateDeployed =>
    }

    /** The cache write after a reply (see `ResponseCache.Store`). */
    method CacheReply(call: PendingCall, content: Value)
      modifies this`cacheFiles
      ensures var fullMethod := Qualified(call.nameSpace, call.name);
        cacheFiles == Store(old(cacheFiles), cacheHashes, fullMethod, callHash(fullMethod, call.params, locale), content)
    {
      var fullMethod := Qualified(call.nameSpace, call.name);
      if fullMethod in cacheHashes {
        var name := CacheFileName(fullMethod, callHash(fullMethod, call.params, locale), cacheHashes[fullMethod]);
        if name !in cacheFiles {
          cacheFiles := cacheFiles[name := content];
        }
      }
    }

    /**
     * The reply branch of `dataReceived`: a reply to no pending call changes
     * nothing; otherwise the call is taken out of the pending ones, an
     * `unauthorized` status drops the token, an error to the hello repeats
     * it, the callback runs whatever the status, `responseReceived` is
     * signalled, and the params are cached.
     */
    method HandleReply(doc: Document)
      requires Valid()
      modifies this`initialSetupRequired, this`authenticationRequired, this`pushButtonAuthAvailable,
               this`serverUuid, this`serverVersion, this`experiences, this`jsonRpcVersion, this`events,
               this`pinnedPems, this`cacheHashes, this`permissions, this`username, this`hostUuid,
               this`token, this`authenticated, this`nextId, this`replies, this`sent, this`storedTokens,
               this`pendingPushButtonTransaction, this`connected, this`cloudConnectionState,
               this`serverQtVersion, this`serverQtBuildVersion, this`cacheFiles
      ensures Valid()
      ensures AsInt(Get(doc, "id")) !in old(replies) ==> unchanged(this)
      ensures var id := AsInt(Get(doc, "id"));
        id in old(replies) ==>
          var call := old(replies)[id];
          var fullMethod := Qualified(call.nameSpace, call.name);
          && |old(events)| < |events| && old(events) <= events && events[|events| - 1] == ResponseReceived(id, AsDocument(Get(doc, "params")))
          && cacheFiles == Store(old(cacheFiles), cacheHashes, fullMethod, callHash(fullMethod, call.params, locale), Get(doc, "params"))
      ensures var id := AsInt(Get(doc, "id"));
        var status := AsString(Get(doc, "status"));
        id in old(replies) && External(old(replies)[id].callback) && !HelloRetry(status, old(replies)[id]) ==>
          var callback := old(replies)[id].callback;
          var params := AsDocument(Get(doc, "params"));
          && Outbox(nextId, replies, sent) == Outbox(old(nextId), old(replies) - {id}, old(sent))
          && events == old(events) + (if Delivered(callback) then [CallbackInvoked(callback, id, params)] else [])
                                   + [ResponseReceived(id, params)]
          && (status == "unauthorized" ==>
                AuthenticationRequired() && !authenticated && storedTokens == old(storedTokens)[old(serverUuid) := ""])
          && (status != "unauthorized" ==>
                && token == old(token) && authenticationRequired == old(authenticationRequired)
                && authenticated == old(authenticated) && storedTokens == old(storedTokens))
    {
      var id := AsInt(Get(doc, "id"));
      if id !in replies {
        return;
      }
      var call := TakeReply(id, AsString(Get(doc, "status")));
      Respond(call, Get(doc, "params"));
    }

    /**
     * The pending call of a reply is taken out; then its status is settled:
     * `unauthorized` drops the token, an error to the hello repeats it.
     */
    method TakeReply(id: int, status: string) returns (call: PendingCall)
      requires Valid() && id in replies
      modifies this`authenticationRequired, this`token, this`storedTokens, this`authenticated,
               this`nextId, this`replies, this`sent, this`events
      ensures Valid()
      ensures call == old(replies)[id] && call.commandId == id
      ensures old(events) <= events
      ensures status == "unauthorized" ==>
        AuthenticationRequired() && !authenticated && storedTokens == old(storedTokens)[serverUuid := ""]
      ensures status != "unauthorized" ==>
        && token == old(token) && authenticationRequired == old(authenticationRequired)
        && authenticated == old(authenticated) && storedTokens == old(storedTokens)
      ensures !HelloRetry(status, call) ==>
        nextId == old(nextId) && replies == old(replies) - {id} && sent == old(sent) && events == old(events)
    {
      call := replies[id];
      replies := replies - {id};
      if status == "unauthorized" {
        RejectToken();
      }
      if HelloRetry(status, call) {
        RetryHello();
      }
    }

    /** The rest of a reply: the callback runs, `responseReceived` is signalled, the params are cached. */
    method Respond(call: PendingCall, content: Value)
      requires Valid()
      modifies this`initialSetupRequired, this`authenticationRequired, this`pushButtonAuthAvailable,
               this`serverUuid, this`serverVersion, this`experiences, this`jsonRpcVersion, this`events,
               this`pinnedPems, this`cacheHashes, this`permissions, this`username, this`hostUuid,
               this`token, this`authenticated, this`nextId, this`replies, this`sent, this`storedTokens,
               this`pendingPushButtonTransaction, this`connected, this`cloudConnectionState,
               this`serverQtVersion, this`serverQtBuildVersion, this`cacheFiles
      ensures Valid()
      ensures |old(events)| < |events| && old(events) <= events
      ensures events[|events| - 1] == ResponseReceived(call.commandId, AsDocument(content))
      ensures var fullMethod := Qualified(call.nameSpace, call.name);
        cacheFiles == Store(old(cacheFiles), cacheHashes, fullMethod, callHash(fullMethod, call.params, locale), content)
      ensures External(call.callback) ==>
        var params := AsDocument(content);
        && events == old(events) + (if Delivered(call.callback) then [CallbackInvoked(call.callback, call.commandId, params)] else [])
                                 + [ResponseReceived(call.commandId, params)]
        && nextId == old(nextId) && replies == old(replies) && sent == old(sent)
        && token == old(token) && authenticationRequired == old(authenticationRequired)
        && authenticated == old(authenticated) && storedTokens == old(storedTokens)
    {
      var params := AsDocument(content);
      DeliverReply(call.callback, call.commandId, params);
      events := events + [ResponseReceived(call.commandId, params)];
      CacheReply(call, content);
    }

    /** A change of the user's own account carries the permissions the client now has. */
    method AdoptUserChange(doc: Document)
      modifies this`permissions
      ensures var user := AsDocument(Get(AsDocument(Get(doc, "params")), "userInfo"));
        permissions == if AsString(Get(doc, "notification")) == "Users.UserChanged" && AsString(Get(user, "username")) == username
                       then Scopes(AsStringList(Get(user, "scopes"))) else old(permissions)
    {
      var user := AsDocument(Get(AsDocument(Get(doc, "params")), "userInfo"));
      if AsString(Get(doc, "notification")) == "Users.UserChanged" && AsString(Get(user, "username")) == username {
        permissions := Scopes(AsStringList(Get(user, "scopes")));
      }
    }

    /** Another object's handler receives a notification on its slot. */
    method DeliverToSubscriber(h: Handler, doc: Document)
      modifies this`events
      ensures events == old(events) + [NotificationDelivered(h, SlotOf(handlerSlots, h), doc)]
    {
      events := events + [NotificationDelivered(h, SlotOf(handlerSlots, h), doc)];
    }

    /** The notification handed to each of the handlers `hs` in turn. */
    method Dispatch(doc: Document, hs: seq<Handler>)
      requires Valid()
      modifies this`pendingPushButtonTransaction, this`token, this`storedTokens, this`initialSetupRequired,
               this`events, this`cloudConnectionState, this`nextId, this`replies, this`sent
      ensures Valid()
      ensures old(events) <= events
      ensures ClientItself !in hs ==>
        && events == old(events) + Deliveries(hs, handlerSlots, doc)
        && Outbox(nextId, replies, sent) == Outbox(old(nextId), old(replies), old(sent))
        && token == old(token) && storedTokens == old(storedTokens)
        && pendingPushButtonTransaction == old(pendingPushButtonTransaction)
        && initialSetupRequired == old(initialSetupRequired) && cloudConnectionState == old(cloudConnectionState)
    {
      if ClientItself !in hs {
        var i := 0;
        while i < |hs|
          invariant 0 <= i <= |hs|
          invariant events == old(events) + Deliveries(hs[..i], handlerSlots, doc)
          modifies this`events
        {
          DeliveriesAppend(hs[..i], hs[i], handlerSlots, doc);
          assert hs[..i + 1] == hs[..i] + [hs[i]];
          DeliverToSubscriber(hs[i], doc);
          i := i + 1;
        }
        assert hs[..i] == hs;
      } else {
        var i := 0;
        while i < |hs|
          invariant Valid()
          invariant old(events) <= events
        {
          if hs[i] == ClientItself {
            NotificationReceived(doc);
          } else {
            DeliverToSubscriber(hs[i], doc);
          }
          i := i + 1;
        }
      }
    }

    /**
     * The notification branch of `dataReceived`: a change of the user's own
     * permissions is adopted, then the notification goes to every handler of
     * its namespace, the most recently registered first.  Another object's
     * handler gets it on its slot; the client's own goes to
     * `notificationReceived`.
     */
    method HandleNotification(doc: Document)
      requires Valid()
      modifies this`permissions, this`pendingPushButtonTransaction, this`token, this`storedTokens,
               this`initialSetupRequired, this`events, this`cloudConnectionState, this`nextId, this`replies, this`sent
      ensures Valid()
      ensures old(events) <= events
      ensures var user := AsDocument(Get(AsDocument(Get(doc, "params")), "userInfo"));
        permissions == if AsString(Get(doc, "notification")) == "Users.UserChanged" && AsString(Get(user, "username")) == username
                       then Scopes(AsStringList(Get(user, "scopes"))) else old(permissions)
      ensures var hs := HandlersFor(handlers, Split(AsString(Get(doc, "notification")), '.')[0]);
        ClientItself !in hs ==>
          && events == old(events) + Deliveries(hs, handlerSlots, doc)
          && Outbox(nextId, replies, sent) == Outbox(old(nextId), old(replies), old(sent))
          && token == old(token) && storedTokens == old(storedTokens)
          && pendingPushButtonTransaction == old(pendingPushButtonTransaction)
          && initialSetupRequired == old(initialSetupRequired) && cloudConnectionState == old(cloudConnectionState)
    {
      AdoptUserChange(doc);
      Dispatch(doc, HandlersFor(handlers, Split(AsString(Get(doc, "notification")), '.')[0]));
    }

    /**
     * `dataReceived`: data arriving while the transport is down is dropped;
     * otherwise it is appended to the buffer and one pass is made (see
     * `Reassembler.Step`); a parsed document is dispatched as a notification
     * or a reply, and a non-empty rest queues another pass.
     */
    method DataReceived(data: string)
      requires Valid()
      modifies this`initialSetupRequired, this`authenticationRequired, this`pushButtonAuthAvailable,
               this`serverUuid, this`serverVersion, this`experiences, this`jsonRpcVersion, this`events,
               this`pinnedPems, this`cacheHashes, this`permissions, this`username, this`hostUuid,
               this`token, this`authenticated, this`nextId, this`replies, this`sent, this`storedTokens,
               this`pendingPushButtonTransaction, this`connected, this`cloudConnectionState,
               this`serverQtVersion, this`serverQtBuildVersion, this`cacheFiles, this`receiveBuffer, this`queuedPasses, this`received
      ensures Valid()
      ensures !transportConnected ==> unchanged(this)
      ensures transportConnected ==>
        var p := Step(old(receiveBuffer) + data, parse);
        && receiveBuffer == p.buffer
        && queuedPasses == old(queuedPasses) + (if p.again then 1 else 0)
        && received == old(received) + (if p.doc.Some? then [p.doc.value] else [])
        && (p.doc.None? || ("notification" !in p.doc.value && AsInt(Get(p.doc.value, "id")) !in old(replies)) ==>
              unchanged(this`events, this`token, this`authenticated, this`nextId, this`replies, this`sent))
    {
      if !transportConnected {
        return;
      }
      var p := Step(receiveBuffer + data, parse);
      receiveBuffer := p.buffer;
      if p.doc.None? {
        return;
      }
      if p.again {
        queuedPasses := queuedPasses + 1;
      }
      received := received + [p.doc.value];
      Process(p.doc.value);
    }

    /** A parsed document: a notification when it names one, otherwise a reply. */
    method Process(doc: Document)
      requires Valid()
      modifies this`initialSetupRequired, this`authenticationRequired, this`pushButtonAuthAvailable,
               this`serverUuid, this`serverVersion, this`experiences, this`jsonRpcVersion, this`events,
               this`pinnedPems, this`cacheHashes, this`permissions, this`username, this`hostUuid,
               this`token, this`authenticated, this`nextId, this`replies, this`sent, this`storedTokens,
               this`pendingPushButtonTransaction, this`connected, this`cloudConnectionState,
               this`serverQtVersion, this`serverQtBuildVersion, this`cacheFiles
      ensures Valid()
      ensures unchanged(this`receiveBuffer, this`queuedPasses, this`received, this`transportConnected)
      ensures "notification" !in doc && AsInt(Get(doc, "id")) !in old(replies) ==>
        unchanged(this`events, this`token, this`authenticated, this`nextId, this`replies, this`sent)
    {
      if "notification" in doc {
        HandleNotification(doc);
      } else {
        HandleReply(doc);
      }
    }

    /**
     * The passes `dataReceived` queued for itself, each run with no new
     * data, until none is left: with the transport up they deliver what
     * `Reassembler.Drain` delivers and leave its rest in the buffer.
     */
    method RunQueuedPasses()
      requires Valid()
      modifies this`initialSetupRequired, this`authenticationRequired, this`pushButtonAuthAvailable,
               this`serverUuid, this`serverVersion, this`experiences, this`jsonRpcVersion, this`events,
               this`pinnedPems, this`cacheHashes, this`permissions, this`username, this`hostUuid,
               this`token, this`authenticated, this`nextId, this`replies, this`sent, this`storedTokens,
               this`pendingPushButtonTransaction, this`connected, this`cloudConnectionState,
               this`serverQtVersion, this`serverQtBuildVersion, this`cacheFiles, this`receiveBuffer, this`queuedPasses, this`received
      ensures Valid()
      ensures queuedPasses == 0
      ensures !transportConnected ==> receiveBuffer == old(receiveBuffer) && received == old(received)
      ensures transportConnected && (old(queuedPasses) > 0 || Step(old(receiveBuffer), parse).doc.None?) ==>
        && receiveBuffer == Drain(old(receiveBuffer), parse).1
        && received == old(received) + Drain(old(receiveBuffer), parse).0
    {
      ghost var delivered: seq<Document> := [];
      assert [] + Drain(receiveBuffer, parse).0 == Drain(receiveBuffer, parse).0;
      while queuedPasses > 0
        invariant Valid()
        invariant !transportConnected ==> receiveBuffer == old(receiveBuffer) && received == old(received)
        invariant transportConnected ==>
          received == old(received) + delivered && DrainsTo(old(receiveBuffer), delivered, receiveBuffer, parse)
        invariant transportConnected && (old(queuedPasses) > 0 || Step(old(receiveBuffer), parse).doc.None?) ==>
          queuedPasses > 0 || Step(receiveBuffer, parse).doc.None?
        decreases |receiveBuffer| + queuedPasses
      {
        ghost var more: seq<Document> := [];
        if transportConnected {
          DrainsToStep(old(receiveBuffer), delivered, receiveBuffer, parse);
          var p := Step(receiveBuffer, parse);
          more := if p.doc.Some? then [p.doc.value] else [];
        }
        queuedPasses := queuedPasses - 1;
        Pass();
        if transportConnected {
          Reassociate(old(received), delivered, more);
          delivered := delivered + more;
        }
      }
      assert delivered + [] == delivered;
    }

    /**
     * One read handed to `dataReceived`, followed by the passes it queues
     * for itself, until none is left: with the transport up, the documents
     * delivered are those `Reassembler.Drain` takes from the buffer plus the
     * data, and its rest stays in the buffer.  Reads handled this way one
     * after the other deliver `Reassembler.Feed` of the reads, which
     * `Reassembler.ChunkedStream` relates to the lines the server wrote.
     */
    method Receive(data: string)
      requires Valid()
      modifies this`initialSetupRequired, this`authenticationRequired, this`pushButtonAuthAvailable,
               this`serverUuid, this`serverVersion, this`experiences, this`jsonRpcVersion, this`events,
               this`pinnedPems, this`cacheHashes, this`permissions, this`username, this`hostUuid,
               this`token, this`authenticated, this`nextId, this`replies, this`sent, this`storedTokens,
               this`pendingPushButtonTransaction, this`connected, this`cloudConnectionState,
               this`serverQtVersion, this`serverQtBuildVersion, this`cacheFiles, this`receiveBuffer, this`queuedPasses, this`received
      ensures Valid() && queuedPasses == 0
      ensures !transportConnected ==> receiveBuffer == old(receiveBuffer) && received == old(received)
      ensures transportConnected ==>
        && receiveBuffer == Drain(old(receiveBuffer) + data, parse).1
        && received == old(received) + Drain(old(receiveBuffer) + data, parse).0
    {
      ghost var buf := receiveBuffer + data;
      ghost var p := Step(buf, parse);
      DataReceived(data);
      if transportConnected && p.doc.Some? {
        DrainUnfold(buf, parse);
        EmptyBufferStable(parse);
        Reassociate(old(received), [p.doc.value], Drain(p.buffer, parse).0);
      }
      RunQueuedPasses();
    }

    /** One queued pass: `dataReceived` with no new data. */
    method Pass()
      requires Valid()
      modifies this`initialSetupRequired, this`authenticationRequired, this`pushButtonAuthAvailable,
               this`serverUuid, this`serverVersion, this`experiences, this`jsonRpcVersion, this`events,
               this`pinnedPems, this`cacheHashes, this`permissions, this`username, this`hostUuid,
               this`token, this`authenticated, this`nextId, this`replies, this`sent, this`storedTokens,
               this`pendingPushButtonTransaction, this`connected, this`cloudConnectionState,
               this`serverQtVersion, this`serverQtBuildVersion, this`cacheFiles, this`receiveBuffer, this`queuedPasses, this`received
      ensures Valid()
      ensures !transportConnected ==> receiveBuffer == old(receiveBuffer) && received == old(received)
                                      && queuedPasses == old(queuedPasses)
      ensures transportConnected ==>
        var p := Step(old(receiveBuffer), parse);
        && receiveBuffer == p.buffer
        && queuedPasses == old(queuedPasses) + (if p.again then 1 else 0)
        && received == old(received) + (if p.doc.Some? then [p.doc.value] else [])
    {
      DataReceived([]);
      assert old(receiveBuffer) + [] == old(receiveBuffer);
    }

    /**
     * `onInterfaceConnectedChanged`: on a disconnect the session flags and
     * the buffer are reset (pending replies are kept) and the client stops
     * counting as connected; on a connect the buffer is cleared, the token
     * stored for the current host is loaded and the hello is sent.
     */
    method OnInterfaceConnectedChanged(up: bool)
      requires Valid()
      modifies this`transportConnected, this`initialSetupRequired, this`authenticationRequired, this`authenticated,
               this`receiveBuffer, this`serverQtVersion, this`serverQtBuildVersion, this`connected, this`events,
               this`token, this`nextId, this`replies, this`sent
      ensures Valid()
      ensures transportConnected == up && receiveBuffer == []
      ensures !up ==> SessionEnded(old(connected), old(events)) && unchanged(this`nextId, this`replies, this`sent, this`token)
      ensures up ==>
        && unchanged(this`initialSetupRequired, this`authenticationRequired, this`authenticated, this`connected)
        && HelloSent(Outbox(old(nextId), old(replies), old(sent)), old(events))
    {
      transportConnected := up;
      if !up {
        EndSession();
      } else {
        StartHandshake();
      }
    }

    /**
     * The session of a lost connection has ended: no setup or authentication
     * is pending, nothing is authenticated, the server's Qt versions are
     * forgotten, and `connectedChanged(false)` followed the events `log` if
     * the client counted as connected.
     */
    predicate SessionEnded(wasConnected: bool, log: seq<Event>)
      reads this`initialSetupRequired, this`authenticationRequired, this`authenticated,
            this`serverQtVersion, this`serverQtBuildVersion, this`connected, this`events
    {
      && !initialSetupRequired && !authenticationRequired && !authenticated
      && serverQtVersion == "" && serverQtBuildVersion == "" && !connected
      && events == log + (if wasConnected then [ConnectedChanged(false)] else [])
    }

    /** A transport that went down: the session flags, the buffer and the server's Qt versions are reset. */
    method EndSession()
      modifies this`initialSetupRequired, this`authenticationRequired, this`authenticated,
               this`receiveBuffer, this`serverQtVersion, this`serverQtBuildVersion, this`connected, this`events
      ensures receiveBuffer == [] && SessionEnded(old(connected), old(events))
    {
      initialSetupRequired := false;
      authenticationRequired := false;
      authenticated := false;
      receiveBuffer := [];
      serverQtVersion := "";
      serverQtBuildVersion := "";
      if connected {
        connected := false;
        events := events + [ConnectedChanged(false)];
      }
    }

    /**
     * The hello of a new connection has gone out after the requests `box`
     * and the events `log`, carrying the token stored for the current host;
     * a cached reply to it is queued instead of sending it.
     */
    ghost predicate HelloSent(box: Outbox, log: seq<Event>)
      reads this`cacheFiles, this`cacheHashes, this`token, this`storedTokens, this`hostUuid,
            this`nextId, this`replies, this`sent, this`events
    {
      var hello := map["locale" := Str(locale)];
      var hit := Lookup(cacheFiles, cacheHashes, Qualified("JSONRPC", "Hello"), callHash(Qualified("JSONRPC", "Hello"), hello, locale));
      && token == StoredToken(storedTokens, HostKey(hostUuid))
      && (hit.None? ==> Outbox(nextId, replies, sent) == Post(box, "JSONRPC", "Hello", hello, OnHello, token) && events == log)
      && (hit.Some? ==> nextId == box.nextId + 1 && replies == box.replies && sent == box.sent
                        && events == log + CacheHitEvents(OnHello, nextId, hit.value))
    }

    /** A transport that came up: the buffer is cleared, the host's stored token loaded, the hello sent. */
    method StartHandshake()
      requires Valid()
      modifies this`receiveBuffer, this`events, this`token, this`nextId, this`replies, this`sent
      ensures Valid()
      ensures receiveBuffer == []
      ensures HelloSent(Outbox(old(nextId), old(replies), old(sent)), old(events))
    {
      receiveBuffer := [];
      token := StoredToken(storedTokens, HostKey(hostUuid));
      var commandId := SendClientCommand("Hello", map["locale" := Str(locale)], OnHello);
    }
  }
}
