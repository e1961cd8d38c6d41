/**
 * The values the JSON-RPC client exchanges with the server and the pure
 * rules it follows: the shape of requests and of the frames written to the
 * transport, the request side of a session (last id, pending calls, frames
 * written) and how each of the client's own requests changes it, the end of
 * the handshake, the tables read from a hello reply, token and certificate
 * lookups, and where a notification is delivered.
 */
module JsonRpcProtocol {
  import opened Common
  import opened Versions
  import opened NotificationRegistry

  /** The slot a reply is delivered to: one of the client's own, or a slot of another object. */
  datatype Callback =
    | NoCallback
    | OnHello
    | OnAuthenticate
    | OnPushButtonAuth
    | OnCreateUser
    | OnNotificationStatus
    | OnCloudConnected
    | OnVersions
    | OnRemoteAccess
    | OnCertificateDeployed
    | Slot(objectId: nat, slot: string)

  /** A JsonRpcReply: the record kept for a request until its reply arrives. */
  datatype PendingCall = PendingCall(commandId: int, nameSpace: string, name: string, params: Document, callback: Callback)

  /**
   * What the transport was asked to send: a document, and whether it was written
   * compact (`sendRequest`) or with `toJson()`'s default indented layout.  Both end in a newline.
   */
  datatype Frame = Frame(doc: Document, compact: bool)

  /** Permission scopes: the list the server grants (protocol 6 and later), or full admin. */
  datatype Permissions = AdminScope | Scopes(names: seq<string>)

  datatype Event =
    | CallbackInvoked(callback: Callback, commandId: int, params: Document)
    | CallbackQueued(callback: Callback, commandId: int, params: Document)
    | ResponseReceived(commandId: int, params: Document)
    | ResponseQueued(commandId: int, params: Document)
    | NotificationDelivered(handler: Handler, slot: string, notification: Document)
    | InvalidMinimumVersion(found: Version)
    | InvalidMaximumVersion(found: Version)
    | NewSslCertificate
    | VerifyConnectionCertificate(serverUuid: string, fingerprint: string, pem: string)
    | DisconnectRequested
    | HandshakeReceived
    | AuthenticationFailed
    | PushButtonAuthFailed
    | CreateUserSucceeded
    | CreateUserFailed(error: string)
    | ConnectedChanged(connected: bool)

  function Qualified(nameSpace: string, name: string): string
  {
    nameSpace + "." + name
  }

  /** A method name the client accepts: exactly two '.'-separated parts. */
  predicate ValidMethod(method': string)
  {
    |Split(method', '.')| == 2
  }

  lemma QualifiedValid(nameSpace: string, name: string)
    requires '.' !in nameSpace && '.' !in name
    ensures ValidMethod(Qualified(nameSpace, name))
    ensures Split(Qualified(nameSpace, name), '.') == [nameSpace, name]
  {
    QualifiedNameSplits(nameSpace, name);
  }

  /** `JsonRpcReply::requestMap`: the request for a pending call. */
  function RequestMap(call: PendingCall): Document
  {
    var request := map["id" := Int(call.commandId), "method" := Str(Qualified(call.nameSpace, call.name))];
    if |call.params| > 0 then request["params" := Object(call.params)] else request
  }

  /** A request carries the call's id and full method name, and params exactly when there are any. */
  lemma RequestShape(call: PendingCall)
    ensures var doc := RequestMap(call);
      && "id" in doc && doc["id"] == Int(call.commandId)
      && "method" in doc && doc["method"] == Str(Qualified(call.nameSpace, call.name))
      && ("params" in doc <==> |call.params| > 0)
      && ("params" in doc ==> doc["params"] == Object(call.params))
      && doc.Keys <= {"id", "method", "params"}
  {
  }

  /** `sendRequest`: the request with the session token added, written compact and newline-terminated. */
  function TokenFrame(request: Document, token: string): Frame
  {
    Frame(request["token" := Str(token)], true)
  }

  /** The frame keeps every field of the request except a previous token, and adds the session token. */
  lemma TokenFrameShape(request: Document, token: string)
    ensures var f := TokenFrame(request, token);
      && f.compact
      && "token" in f.doc && f.doc["token"] == Str(token)
      && (forall k :: k in request && k != "token" ==> k in f.doc && f.doc[k] == request[k])
      && f.doc.Keys == request.Keys + {"token"}
  {
  }

  /** The method name of a request splits back into the call's namespace and name. */
  lemma RequestMethodSplits(call: PendingCall)
    requires '.' !in call.nameSpace && '.' !in call.name
    ensures Split(AsString(RequestMap(call)["method"]), '.') == [call.nameSpace, call.name]
  {
    QualifiedNameSplits(call.nameSpace, call.name);
  }

  /** The params of `JSONRPC.SetNotificationStatus` for the registered namespaces. */
  function NotificationStatusParams(namespaces: seq<string>, version: Version): Document
  {
    var all := WithUsers(namespaces);
    if AtLeast(version, NamespacesVersion) then map["namespaces" := List(StrValues(all))]
    else map["enabled" := Bool(|all| > 0)]
  }

  /** The namespaces with "Users" added when missing, so permission changes are always seen. */
  function WithUsers(namespaces: seq<string>): seq<string>
  {
    if "Users" in namespaces then namespaces else namespaces + ["Users"]
  }

  /**
   * From protocol 3.1 on, the notification status lists exactly the
   * registered namespaces plus "Users"; before it, notifications are simply
   * enabled, whatever is registered.
   */
  lemma NotificationStatusCovers(namespaces: seq<string>, version: Version)
    ensures var p := NotificationStatusParams(namespaces, version);
      && (AtLeast(version, NamespacesVersion) ==>
            && p.Keys == {"namespaces"} && p["namespaces"].List?
            && var listed := StringsOf(p["namespaces"].items);
               && "Users" in listed
               && (forall n :: n in namespaces ==> n in listed)
               && (forall n :: n in listed ==> n in namespaces || n == "Users"))
      && (!AtLeast(version, NamespacesVersion) ==> p == map["enabled" := Bool(true)])
  {
    StringsRoundTrip(WithUsers(namespaces));
  }

  function StrValues(names: seq<string>): seq<Value>
  {
    if names == [] then [] else [Str(names[0])] + StrValues(names[1..])
  }

  lemma {:induction false} StringsRoundTrip(names: seq<string>)
    ensures StringsOf(StrValues(names)) == names
  {
    if names != [] {
      StringsRoundTrip(names[1..]);
      assert StrValues(names)[1..] == StrValues(names[1..]);
      assert [names[0]] + names[1..] == names;
    }
  }

  /**
   * A table read from a list of maps, later elements overriding earlier ones:
   * the experiences ("name" to "version") and the cache hashes ("method" to
   * "hash") of the hello reply.
   */
  function PairTable(items: seq<Value>, keyField: string, valueField: string): map<string, string>
  {
    if items == [] then map[]
    else
      var last := AsDocument(items[|items| - 1]);
      PairTable(items[..|items| - 1], keyField, valueField)[AsString(Get(last, keyField)) := AsString(Get(last, valueField))]
  }

  /** Each key of the table holds the value of the last element that names it. */
  lemma {:induction false} PairTableLastWins(items: seq<Value>, keyField: string, valueField: string, i: nat)
    requires i < |items|
    requires forall j :: i < j < |items| ==>
      AsString(Get(AsDocument(items[j]), keyField)) != AsString(Get(AsDocument(items[i]), keyField))
    ensures var k := AsString(Get(AsDocument(items[i]), keyField));
      k in PairTable(items, keyField, valueField) &&
      PairTable(items, keyField, valueField)[k] == AsString(Get(AsDocument(items[i]), valueField))
    decreases |items|
  {
    if i < |items| - 1 {
      var init := items[..|items| - 1];
      assert forall j :: i < j < |init| ==> init[j] == items[j];
      PairTableLastWins(init, keyField, valueField, i);
      assert init[i] == items[i];
    }
  }

  /** Every key of the table is named by some element. */
  lemma {:induction false} PairTableKeys(items: seq<Value>, keyField: string, valueField: string, k: string)
    requires k in PairTable(items, keyField, valueField)
    ensures exists j :: 0 <= j < |items| && AsString(Get(AsDocument(items[j]), keyField)) == k
    decreases |items|
  {
    var init := items[..|items| - 1];
    if k != AsString(Get(AsDocument(items[|items| - 1]), keyField)) {
      PairTableKeys(init, keyField, valueField, k);
      var j :| 0 <= j < |init| && AsString(Get(AsDocument(init[j]), keyField)) == k;
      assert init[j] == items[j];
    }
  }

  /** The `foreach` of helloReply that fills a table from a list of maps. */
  method ReadPairs(items: seq<Value>, keyField: string, valueField: string) returns (table: map<string, string>)
    ensures table == PairTable(items, keyField, valueField)
  {
    table := map[];
    var i := 0;
    while i < |items|
      invariant 0 <= i <= |items|
      invariant table == PairTable(items[..i], keyField, valueField)
    {
      var entry := AsDocument(items[i]);
      table := table[AsString(Get(entry, keyField)) := AsString(Get(entry, valueField))];
      assert items[..i + 1][..i] == items[..i];
      i := i + 1;
    }
    assert items[..i] == items;
  }

  /** The null QUuid as QUuid::toString() writes it, the settings key used when the host has no uuid yet. */
  const NullUuid := "{00000000-0000-0000-0000-000000000000}"

  /** The PEM file key: the uuid text without its braces. */
  function PemKey(uuid: string): (k: string)
    ensures '{' !in k && '}' !in k
    ensures |k| <= |uuid|
  {
    if uuid == [] then []
    else (if uuid[0] == '{' || uuid[0] == '}' then [] else [uuid[0]]) + PemKey(uuid[1..])
  }

  /** `QSettings::value(key).toByteArray()`: the stored token, or an empty one. */
  function StoredToken(tokens: map<string, string>, key: string): string
  {
    if key in tokens then tokens[key] else ""
  }

  /** The connection presents a certificate other than the one pinned for the server. */
  predicate PinMismatch(encrypted: bool, pins: map<string, string>, uuid: string, pem: string)
  {
    encrypted && PemKey(uuid) in pins && pins[PemKey(uuid)] != pem
  }

  /** No certificate is pinned for the server yet, so the presented one gets pinned. */
  predicate PinNew(encrypted: bool, pins: map<string, string>, uuid: string)
  {
    encrypted && PemKey(uuid) !in pins
  }

  /** The permissions a hello or authenticate reply grants: the scope list on protocol 6+, admin before. */
  function GrantedPermissions(version: Version, scopes: Value): Permissions
  {
    if Major(version) >= 6 then Scopes(AsStringList(scopes)) else AdminScope
  }
  /** A callback with a live caller and a non-empty slot name. */
  predicate Delivered(callback: Callback)
  {
    callback != NoCallback && (callback.Slot? ==> callback.slot != "")
  }

  /** The queued deliveries of a reply served from the cache. */
  function CacheHitEvents(callback: Callback, commandId: int, params: Document): seq<Event>
  {
    (if Delivered(callback) then [CallbackQueued(callback, commandId, params)] else [])
      + [ResponseQueued(commandId, params)]
  }

  /** A callback of another object (or none), as opposed to one of the client's own slots. */
  predicate External(callback: Callback)
  {
    callback.Slot? || callback == NoCallback
  }

  /** An error reply to the client's hello, which makes it say hello again without a locale. */
  predicate HelloRetry(status: string, call: PendingCall)
  {
    status == "error" && call.nameSpace == "JSONRPC" && call.name == "Hello"
  }

  /** The request side of a session: the last id handed out, the calls awaiting a reply, the frames written. */
  datatype Outbox = Outbox(nextId: int, replies: map<int, PendingCall>, sent: seq<Frame>)

  /** Every pending call is filed under its own id, and ids are never negative. */
  predicate Keyed(nextId: int, replies: map<int, PendingCall>)
  {
    nextId >= 0 && forall id :: id in replies ==> replies[id].commandId == id
  }

  /** `createReply` followed by recording the call and `sendRequest`: the next id, filed and sent with the token. */
  function Post(box: Outbox, nameSpace: string, name: string, params: Document, callback: Callback, token: string): Outbox
  {
    var call := PendingCall(box.nextId + 1, nameSpace, name, params, callback);
    Outbox(call.commandId, box.replies[call.commandId := call], box.sent + [TokenFrame(RequestMap(call), token)])
  }

  /** `setNotificationsEnabled`: nothing while the transport is down, else the SetNotificationStatus request. */
  function EnableNotifications(box: Outbox, up: bool, handlers: seq<Entry>, version: Version, token: string): Outbox
  {
    if !up then box
    else Post(box, "JSONRPC", "SetNotificationStatus", NotificationStatusParams(Namespaces(handlers), version),
              OnNotificationStatus, token)
  }

  /** `getCloudConnectionStatus`: the IsCloudConnected request, sent whether or not the transport is up. */
  function AskCloudStatus(box: Outbox, token: string): Outbox
  {
    Post(box, "JSONRPC", "IsCloudConnected", map[], OnCloudConnected, token)
  }

  /** The requests that open a session. */
  function OpenSession(box: Outbox, up: bool, handlers: seq<Entry>, version: Version, token: string): Outbox
  {
    AskCloudStatus(EnableNotifications(box, up, handlers, version, token), token)
  }

  /** The frames appended to `box.sent` all carry `token` and are written compact. */
  predicate NewFramesCarry(box: Outbox, after: Outbox, token: string)
  {
    && box.sent <= after.sent
    && forall i :: |box.sent| <= i < |after.sent| ==>
         after.sent[i].compact && "token" in after.sent[i].doc && after.sent[i].doc["token"] == Str(token)
  }

  /**
   * A posted request gets the next id, is the only new pending call, and is
   * written last with the token; the ids stay keyed.
   */
  lemma PostShape(box: Outbox, nameSpace: string, name: string, params: Document, callback: Callback, token: string)
    ensures var r := Post(box, nameSpace, name, params, callback, token);
      && r.nextId == box.nextId + 1
      && r.replies.Keys == box.replies.Keys + {r.nextId}
      && r.replies[r.nextId] == PendingCall(r.nextId, nameSpace, name, params, callback)
      && (forall id :: id in box.replies && id != r.nextId ==> r.replies[id] == box.replies[id])
      && |r.sent| == |box.sent| + 1 && NewFramesCarry(box, r, token)
      && r.sent[|box.sent|].doc["id"] == Int(r.nextId)
      && (Keyed(box.nextId, box.replies) ==> Keyed(r.nextId, r.replies))
  {
    PostFiles(box, nameSpace, name, params, callback, token);
    PostKeeps(box, nameSpace, name, params, callback, token);
    PostWrites(box, nameSpace, name, params, callback, token);
  }

  /** The pending-call half of `PostShape`. */
  lemma PostFiles(box: Outbox, nameSpace: string, name: string, params: Document, callback: Callback, token: string)
    ensures var r := Post(box, nameSpace, name, params, callback, token);
      && r.nextId == box.nextId + 1
      && r.replies.Keys == box.replies.Keys + {r.nextId}
      && r.replies[r.nextId] == PendingCall(r.nextId, nameSpace, name, params, callback)
  {
  }

  /**
   * The hello retry resets the id counter to 0 before posting, so the
   * retried hello takes id 1.  A call still pending under id 1 is replaced
   * by it and can no longer be answered: the pending ids do not grow.
   */
  lemma RetryReusesPendingId(replies: map<int, PendingCall>, sent: seq<Frame>, token: string)
    requires 1 in replies
    ensures var r := Post(Outbox(0, replies, sent), "JSONRPC", "Hello", map[], OnHello, token);
      && r.nextId == 1
      && r.replies.Keys == replies.Keys
      && r.replies[1] == PendingCall(1, "JSONRPC", "Hello", map[], OnHello)
  {
  }

  /** Posting leaves the other pending calls alone and keeps the ids keyed. */
  lemma PostKeeps(box: Outbox, nameSpace: string, name: string, params: Document, callback: Callback, token: string)
    ensures var r := Post(box, nameSpace, name, params, callback, token);
      && (forall id :: id in box.replies && id != r.nextId ==> r.replies[id] == box.replies[id])
      && (Keyed(box.nextId, box.replies) ==> Keyed(r.nextId, r.replies))
  {
  }

  /** The written-frame half of `PostShape`. */
  lemma PostWrites(box: Outbox, nameSpace: string, name: string, params: Document, callback: Callback, token: string)
    ensures var r := Post(box, nameSpace, name, params, callback, token);
      && |r.sent| == |box.sent| + 1 && NewFramesCarry(box, r, token)
      && r.sent[|box.sent|].doc["id"] == Int(box.nextId + 1)
  {
    var call := PendingCall(box.nextId + 1, nameSpace, name, params, callback);
    var sent := box.sent + [TokenFrame(RequestMap(call), token)];
    var f := TokenFrame(RequestMap(call), token);
    RequestShape(call);
    TokenFrameShape(RequestMap(call), token);
    assert Post(box, nameSpace, name, params, callback, token).sent == sent;
    assert sent[|box.sent|] == f;
    forall i | |box.sent| <= i < |sent|
      ensures sent[i].compact && "token" in sent[i].doc && sent[i].doc["token"] == Str(token)
    {
      assert sent[i] == f;
    }
  }

  /**
   * Opening a session posts the notification status (only while the
   * transport is up) and then the cloud status query, each under the next
   * id and with the session token; earlier pending calls stay as they were.
   */
  lemma OpenSessionSends(box: Outbox, up: bool, handlers: seq<Entry>, version: Version, token: string)
    ensures var r := OpenSession(box, up, handlers, version, token);
      && r.nextId == box.nextId + (if up then 2 else 1)
      && |r.sent| == |box.sent| + (if up then 2 else 1)
      && NewFramesCarry(box, r, token)
      && r.replies[r.nextId].name == "IsCloudConnected"
      && (up ==> r.replies[box.nextId + 1].name == "SetNotificationStatus")
      && (forall id :: id in box.replies && !(box.nextId < id <= r.nextId) ==> id in r.replies && r.replies[id] == box.replies[id])
      && (Keyed(box.nextId, box.replies) ==> Keyed(r.nextId, r.replies))
  {
    var mid := EnableNotifications(box, up, handlers, version, token);
    if up {
      PostShape(box, "JSONRPC", "SetNotificationStatus", NotificationStatusParams(Namespaces(handlers), version),
                OnNotificationStatus, token);
    }
    PostShape(mid, "JSONRPC", "IsCloudConnected", map[], OnCloudConnected, token);
  }

  /** The session state the end of the handshake decides: the token, whether authenticated, the requests. */
  datatype Session = Session(token: string, authenticated: bool, box: Outbox)

  /**
   * The end of `helloReply`: nothing more while initial setup is required;
   * with authentication required the token stored for the server is loaded,
   * and without one the client waits; otherwise the session is opened,
   * authenticated when authentication was required.
   */
  function FinishHandshake(setupRequired: bool, authRequired: bool, stored: string, s: Session,
                           up: bool, handlers: seq<Entry>, version: Version): Session
  {
    if setupRequired then s
    else if authRequired && stored == "" then Session("", s.authenticated, s.box)
    else
      var token := if authRequired then stored else s.token;
      Session(token, authRequired || s.authenticated, OpenSession(s.box, up, handlers, version, token))
  }

  /**
   * The handshake sends requests exactly when setup is done and, if the
   * server wants authentication, a token is stored for it; every request
   * carries the session's token; it authenticates the client only with the
   * stored token, and never before setup is done.
   */
  lemma HandshakeSendsOnlyWhenAllowed(setupRequired: bool, authRequired: bool, stored: string, s: Session,
                                      up: bool, handlers: seq<Entry>, version: Version)
    ensures var r := FinishHandshake(setupRequired, authRequired, stored, s, up, handlers, version);
      && (|r.box.sent| > |s.box.sent| <==> !setupRequired && (!authRequired || stored != ""))
      && (|r.box.sent| == |s.box.sent| ==> r.box == s.box)
      && NewFramesCarry(s.box, r.box, r.token)
      && (r.authenticated && !s.authenticated ==> !setupRequired && authRequired && r.token == stored && stored != "")
      && (authRequired && !setupRequired ==> r.token == stored)
      && (Keyed(s.box.nextId, s.box.replies) ==> Keyed(r.box.nextId, r.box.replies))
  {
    if !setupRequired && !(authRequired && stored == "") {
      var token := if authRequired then stored else s.token;
      OpenSessionSends(s.box, up, handlers, version, token);
    }
  }

  /** The registry holds no repeated pair, and every registered handler has a slot. */
  predicate HandlersKnown(handlers: seq<Entry>, slots: map<Handler, string>)
  {
    NoDuplicates(handlers) && forall i :: 0 <= i < |handlers| ==> handlers[i].1 in slots
  }

  /** `QHash::value(handler)`: the slot name, or an empty one. */
  function SlotOf(slots: map<Handler, string>, h: Handler): string
  {
    if h in slots then slots[h] else ""
  }

  /** The deliveries of a notification to the handlers other than the client itself, in order. */
  function Deliveries(hs: seq<Handler>, slots: map<Handler, string>, notification: Document): seq<Event>
  {
    if hs == [] then []
    else
      (if hs[0] == ClientItself then [] else [NotificationDelivered(hs[0], SlotOf(slots, hs[0]), notification)])
        + Deliveries(hs[1..], slots, notification)
  }

  lemma {:induction false} DeliveriesAppend(hs: seq<Handler>, h: Handler, slots: map<Handler, string>, notification: Document)
    ensures Deliveries(hs + [h], slots, notification)
         == Deliveries(hs, slots, notification)
            + (if h == ClientItself then [] else [NotificationDelivered(h, SlotOf(slots, h), notification)])
    decreases |hs|
  {
    if hs == [] {
      assert [h][1..] == [];
    } else {
      var first := if hs[0] == ClientItself then [] else [NotificationDelivered(hs[0], SlotOf(slots, hs[0]), notification)];
      assert (hs + [h])[0] == hs[0] && (hs + [h])[1..] == hs[1..] + [h];
      assert Deliveries(hs + [h], slots, notification) == first + Deliveries(hs[1..] + [h], slots, notification);
      DeliveriesAppend(hs[1..], h, slots, notification);
    }
  }

  /**
   * A notification reaches every handler other than the client itself once
   * per registration, on that handler's slot, and produces nothing else.
   */
  lemma {:induction false} DeliveriesReachHandlers(hs: seq<Handler>, slots: map<Handler, string>, notification: Document)
    ensures |Deliveries(hs, slots, notification)| <= |hs|
    ensures forall e :: e in Deliveries(hs, slots, notification) <==>
      exists g :: g in hs && g != ClientItself && e == NotificationDelivered(g, SlotOf(slots, g), notification)
  {
    if hs != [] {
      DeliveriesReachHandlers(hs[1..], slots, notification);
      assert forall g :: g in hs <==> g == hs[0] || g in hs[1..];
    }
  }

  /** The settings key of the current host: its uuid, or the null uuid while it has none. */
  function HostKey(hostUuid: Option<string>): string
  {
    match hostUuid
    case Some(u) => u
    case None => NullUuid
  }
}
