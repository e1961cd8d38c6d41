# nymea-app client core in Dafny

This project models three parts of nymea-app's client library, `libnymea-app`:

- **The JSON-RPC client** (`JsonRpcClient`). It talks to a nymea core over a
  line-oriented JSON stream. It numbers its requests and keeps each pending
  call until the reply with that id arrives. It reassembles the incoming byte
  stream into JSON documents and routes notifications to the handler objects
  registered for their namespace. It also runs the handshake:
  - the `JSONRPC.Hello` exchange;
  - the protocol version window (at least 5.0, major at most 6);
  - certificate pinning per server uuid;
  - stored tokens, authentication, user creation and push-button pairing.

  Finally, it keeps an on-disk response cache keyed by the server's per-method
  cache hashes.
- **The power-log model** (`ThingPowerLogs`). It unpacks logged and live power
  samples of things. It tracks the latest live sample per thing. It groups
  logged samples into batches of equal timestamp. It collects notification
  samples in a cache until the timestamp moves on or a timer fires.
- **The Zigbee node** (`ZigbeeNode`). This is a property holder whose setters
  emit a change signal only when the value really changes. A server map updates
  all of its properties at once.

The JSON parser, the MD5 hash of a call, the locale, the stored settings and the
cache directory are given to the client as values or maps. The transport is a
set of fields: connected, encrypted, the peer certificate and its digest, and
the frames sent. Signals and calls into other objects are appended to an event
log, so contracts can say exactly what was emitted and in which order.

Modules:

- `Common` (common.dfy): the QVariant-like `Value`/`Document`, its accessors, and
  `Split`/`Join` on strings.
- `Versions` (versions.dfy): QVersionNumber parsing, formatting and ordering, and
  the version window of the handshake.
- `Fingerprint` (fingerprint.dfy): the colon-separated hex fingerprint of a
  certificate digest.
- `Reassembler` (reassembler.dfy): one pass over the receive buffer, draining
  the buffer, and what a stream of newline-terminated objects delivers however
  the reads cut it.
- `NotificationRegistry` (registry.dfy): the QMultiMap of notification handlers.
- `ResponseCache` (responsecache.dfy): the cache file names, lookup and
  write-once store.
- `JsonRpcProtocol` (jsonrpcprotocol.dfy): the request and frame shapes, the
  outbox arithmetic, and the handshake's decisions as functions.
- `JsonRpc` (jsonrpcclient.dfy): the class `JsonRpcClient`. Its fields are the
  client's state and its methods are the client's operations.
- `PowerLogs` (thingpowerlogs.dfy): the class `ThingPowerLogs` and the
  specification functions of its grouping.
- `Zigbee` (zigbeenode.dfy): the class `ZigbeeNode` and the decoding of a node map.

`JsonRpcClient.Valid()` is the correlation invariant. Every pending call is
stored under its own command id, and the id counter is never negative. It does
not bound the pending ids by the counter: a failed hello resets the counter to
0 (jsonrpcclient.cpp:662), so later ids can meet ones still pending, and a new
call then replaces the old one in the map. `RetryReusesPendingId` states this for
the retried hello itself, which takes id 1. `RegistryValid()` says that every
registered handler has a slot and that no (namespace, handler) pair is
registered twice. The second half holds for the corrected registration the
model uses (see "## Findings"); the code as written can record a pair twice.

## Model

| member | source | states |
|---|---|---|
| Common.Split | libnymea-app/jsonrpc/jsonrpcclient.cpp:483 | Splitting yields one part more than there are separators, and no part contains the separator |
| Common.JoinSplit | libnymea-app/jsonrpc/jsonrpcclient.cpp:483 | Joining the parts of a split with the same separator gives back the original string |
| Common.SplitJoin | libnymea-app/jsonrpc/jsonrpcclient.cpp:483 | Splitting a join of separator-free parts gives back the parts |
| Common.QualifiedNameSplits | libnymea-app/jsonrpc/jsonrpcclient.cpp:483-484 | "Namespace.Method" with dot-free halves splits into exactly those two halves |
| Versions.DigitChar | libnymea-app/jsonrpc/jsonrpcclient.cpp:713 | The digit character of d < 10 is a digit whose value is d |
| Versions.Decimal | libnymea-app/jsonrpc/jsonrpcclient.cpp:713 | A number prints as a non-empty run of digits |
| Versions.DecimalValueOfDecimal | libnymea-app/jsonrpc/jsonrpcclient.cpp:713 | Reading back the printed digits of a number gives the number |
| Versions.DigitRun | libnymea-app/jsonrpc/jsonrpcclient.cpp:713 | The leading digit run of a string is all digits and is followed by a non-digit or the end |
| Versions.DigitRunOf | libnymea-app/jsonrpc/jsonrpcclient.cpp:713 | The digit run of digits followed by a non-digit is exactly those digits |
| Versions.LessIrreflexive | libnymea-app/jsonrpc/jsonrpcclient.cpp:719 | No version number is below itself |
| Versions.LessTransitive | libnymea-app/jsonrpc/jsonrpcclient.cpp:719 | The version order is transitive |
| Versions.LessTotal | libnymea-app/jsonrpc/jsonrpcclient.cpp:719 | Of two distinct version numbers, one is below the other |
| Versions.ParseFormat | libnymea-app/jsonrpc/jsonrpcclient.cpp:713 | Parsing the dotted form of a non-empty version number gives back that version |
| Versions.CheckVersion | libnymea-app/jsonrpc/jsonrpcclient.cpp:717-728 | A version is accepted exactly when it is at least 5.0 and its major is at most 6; it is refused as too old exactly when it is below 5.0 |
| Versions.AtLeastMeans | libnymea-app/jsonrpc/jsonrpcclient.cpp:428 | QVersionNumber's `>=` holds exactly when the versions are equal or the first is above the second |
| Versions.ProtocolVersion | libnymea-app/jsonrpc/jsonrpcclient.cpp:708-711 | The announced text gets "0." put before it when it has no dot: the result always has a dot, ends with the announced text, and equals it when it had one |
| Versions.UndottedVersionRefused | libnymea-app/jsonrpc/jsonrpcclient.cpp:708-723 | A protocol version without a dot gets "0." prepended, so it has major 0 and is always refused as below the minimum |
| Versions.SupportedRange | libnymea-app/jsonrpc/jsonrpcclient.cpp:717-728 | With major 5 or 6, the version is accepted exactly when it has a minor part or its major is 6 ("5" alone is below 5.0) |
| Versions.NamespacesVersionParses | libnymea-app/jsonrpc/jsonrpcclient.cpp:510 | "3.1" parses to the version from which the notification namespaces are sent |
| Fingerprint.HexByte | libnymea-app/jsonrpc/jsonrpcclient.cpp:284-286 | A byte prints as two characters without a colon |
| Fingerprint.HexPairs | libnymea-app/jsonrpc/jsonrpcclient.cpp:283-286 | One hex pair per digest byte, in order |
| Fingerprint.FormatFingerprint | libnymea-app/jsonrpc/jsonrpcclient.cpp:280-287 | The loop that joins the hex pairs with colons computes the fingerprint of the digest |
| Fingerprint.JoinAppend | libnymea-app/jsonrpc/jsonrpcclient.cpp:283-286 | Appending a part to a non-empty list adds one separator and the part |
| Fingerprint.FingerprintAppend | libnymea-app/jsonrpc/jsonrpcclient.cpp:283-286 | One more byte adds a colon (except at the start) and its two hex digits; the fingerprint is empty exactly for the empty digest |
| Fingerprint.FingerprintLength | libnymea-app/jsonrpc/jsonrpcclient.cpp:280-287 | A fingerprint of n > 0 bytes has 3n-1 characters |
| Fingerprint.HexByteParses | libnymea-app/jsonrpc/jsonrpcclient.cpp:286 | Every byte is recovered from its two hex digits |
| Fingerprint.ParsePairsOfHex | libnymea-app/jsonrpc/jsonrpcclient.cpp:283-286 | A list of hex pairs parses back to the digest it came from |
| Fingerprint.FingerprintRoundTrip | libnymea-app/jsonrpc/jsonrpcclient.cpp:280-287 | The fingerprint determines the digest: parsing it gives the digest back, so distinct digests never share a fingerprint |
| Reassembler.FindSeparator | libnymea-app/jsonrpc/jsonrpcclient.cpp:598 | Finds the first "}\n{" at or after the start position, or reports that there is none |
| Reassembler.SplitIndex | libnymea-app/jsonrpc/jsonrpcclient.cpp:598-601 | The split point never lies beyond the buffer |
| Reassembler.Step | libnymea-app/jsonrpc/jsonrpcclient.cpp:596-612 | A failed parse keeps the buffer and queues nothing; a pass never makes the buffer longer |
| Reassembler.Drain | libnymea-app/jsonrpc/jsonrpcclient.cpp:596-612 | Draining delivers something exactly when the first pass parses; delivering nothing leaves the buffer as it was; the rest is never longer than the buffer |
| Reassembler.StepShape | libnymea-app/jsonrpc/jsonrpcclient.cpp:596-612 | One pass parses the text up to the first "}\n{" (or the whole buffer). If that parse fails, the buffer is kept and nothing is queued. If it succeeds, the parsed text and its newline are removed. Another pass is queued exactly when a document was taken and data remains |
| Reassembler.DrainUnfold | libnymea-app/jsonrpc/jsonrpcclient.cpp:609-612 | Draining after a successful pass delivers that document first, then what draining the rest delivers |
| Reassembler.EmptyBufferStable | libnymea-app/jsonrpc/jsonrpcclient.cpp:603-606 | An empty buffer yields no document |
| Reassembler.DrainsToStep | libnymea-app/jsonrpc/jsonrpcclient.cpp:609-612 | Each queued pass moves the state along the drain, and a state where nothing is queued is stable |
| Reassembler.DrainLeavesStableSuffix | libnymea-app/jsonrpc/jsonrpcclient.cpp:596-612 | What is left after draining is a suffix of the buffer from which no pass can parse a document |
| Reassembler.StableSuffixThroughPass | libnymea-app/jsonrpc/jsonrpcclient.cpp:609-612 | A stable remainder after the rest of the buffer is also a stable remainder of the whole buffer |
| Reassembler.SuffixOfSuffix | libnymea-app/jsonrpc/jsonrpcclient.cpp:608 | A suffix of the remainder is a suffix of the buffer |
| Reassembler.DrainObjectLines | libnymea-app/jsonrpc/jsonrpcclient.cpp:596-612 | Everything the server wrote, each object followed by its newline and received in one read, is delivered one document per line, in order, and the buffer ends empty |
| Reassembler.FirstSeparatorAfter | libnymea-app/jsonrpc/jsonrpcclient.cpp:598 | In "object\n{..." (after an optional leading newline) the first separator is the object's closing brace |
| Reassembler.FirstSeparatorIs | libnymea-app/jsonrpc/jsonrpcclient.cpp:598 | A separator with none before it is the one indexOf finds |
| Reassembler.LineHasNoSeparator | libnymea-app/jsonrpc/jsonrpcclient.cpp:598 | An object line with a newline before and after it holds no "}\n{" |
| Reassembler.PrefixHasNoSeparator | libnymea-app/jsonrpc/jsonrpcclient.cpp:598-601 | A prefix of a text without separators has none, so the whole buffer is parsed |
| Reassembler.FramesStartsWith | libnymea-app/jsonrpc/jsonrpcclient.cpp:525 | The text written for at least one line starts with "{" and is longer than the first line |
| Reassembler.ParsedSplit | libnymea-app/jsonrpc/jsonrpcclient.cpp:596-612 | The documents of the first k lines followed by those of the rest are the documents of all lines |
| Reassembler.ParsedCons | libnymea-app/jsonrpc/jsonrpcclient.cpp:596-612 | The documents of k lines are the first line's document followed by those of the next k - 1 |
| Reassembler.StepFirstLine | libnymea-app/jsonrpc/jsonrpcclient.cpp:598-612 | A pass over an object line, its newline and more objects parses the line, keeps the rest and queues another pass |
| Reassembler.DrainPartialLine | libnymea-app/jsonrpc/jsonrpcclient.cpp:603-606 | A buffer holding less than the whole next line (after an optional newline) delivers nothing and is kept |
| Reassembler.DrainWholeLine | libnymea-app/jsonrpc/jsonrpcclient.cpp:598-612 | A buffer holding exactly the next line, with or without its newline, delivers that line and ends empty (`right(-1)` is empty) |
| Reassembler.DrainWaiting | libnymea-app/jsonrpc/jsonrpcclient.cpp:603-606 | A buffer that waits for the rest of the next line delivers nothing and is kept |
| Reassembler.DrainPrefix | libnymea-app/jsonrpc/jsonrpcclient.cpp:596-612 | Draining any received prefix of the stream delivers the first k lines, in order, and leaves a buffer that waits for the rest of line k, at most behind the newline of line k - 1 |
| Reassembler.DrainPrefixLine | libnymea-app/jsonrpc/jsonrpcclient.cpp:598-612 | The DrainPrefix case where the buffer holds the whole next line |
| Reassembler.DrainPrefixMore | libnymea-app/jsonrpc/jsonrpcclient.cpp:598-612 | The DrainPrefix case where the buffer reaches into the line after the next |
| Reassembler.DrainFirstLine | libnymea-app/jsonrpc/jsonrpcclient.cpp:598-612 | A buffer reaching past the next line delivers that line first and then drains what follows it |
| Reassembler.AfterLine | libnymea-app/jsonrpc/jsonrpcclient.cpp:608 | What follows a buffer ending at a line's end is the next lines, behind the newline when the buffer stops short of it |
| Reassembler.PastLine | libnymea-app/jsonrpc/jsonrpcclient.cpp:608 | A buffer reaching past a line is the line, its newline and a prefix of the next lines |
| Reassembler.PastFirstLine | libnymea-app/jsonrpc/jsonrpcclient.cpp:608 | A prefix of p + f longer than p is p followed by a prefix of f |
| Reassembler.ChunkedStream | libnymea-app/jsonrpc/jsonrpcclient.cpp:588-612 | However the reads cut what the server writes, with each read followed by its queued passes, the documents delivered are exactly one per line, in order, and the buffer keeps at most the last newline |
| Reassembler.FeedFrom | libnymea-app/jsonrpc/jsonrpcclient.cpp:588-612 | The ChunkedStream property from any buffer that waits for the next line |
| NotificationRegistry.StrLessTransitive | libnymea-app/jsonrpc/jsonrpcclient.cpp:79 | The QString order of namespaces is transitive |
| NotificationRegistry.StrLessIrreflexive | libnymea-app/jsonrpc/jsonrpcclient.cpp:79 | No namespace is below itself |
| NotificationRegistry.StrLessTotal | libnymea-app/jsonrpc/jsonrpcclient.cpp:79 | Two namespaces neither below the other are equal |
| NotificationRegistry.SmallestKey | libnymea-app/jsonrpc/jsonrpcclient.cpp:79 | QMultiMap::key of a handler: present exactly when the handler is registered; it is one of its namespaces, and no namespace of that handler is smaller |
| NotificationRegistry.Register | libnymea-app/jsonrpc/jsonrpcclient.cpp:77-85 | Corrected: after registration the pair is present; a pair already present leaves the registry unchanged, and a new pair is appended |
| NotificationRegistry.Unregister | libnymea-app/jsonrpc/jsonrpcclient.cpp:88-94 | Exactly the entries of other handlers remain |
| NotificationRegistry.HandlersFor | libnymea-app/jsonrpc/jsonrpcclient.cpp:631 | A handler is among the handlers of a namespace exactly when it is registered for it |
| NotificationRegistry.KeyOf | libnymea-app/jsonrpc/jsonrpcclient.cpp:79 | QMultiMap::key of a handler: its smallest namespace while it is registered, the empty string otherwise |
| NotificationRegistry.RegisterAsWritten | libnymea-app/jsonrpc/jsonrpcclient.cpp:79-83 | As written: the registry is left alone exactly when the handler's key() equals the namespace, and otherwise gains the pair at the end |
| NotificationRegistry.RegisterAsWrittenSkipsEmpty | libnymea-app/jsonrpc/jsonrpcclient.cpp:79-82 | As written, a handler registered nowhere is never registered for the empty namespace, because key() then returns the empty string; the corrected registration records it |
| NotificationRegistry.RegisterAsWrittenAgrees | libnymea-app/jsonrpc/jsonrpcclient.cpp:79-83 | Apart from the empty namespace of an unregistered handler and the re-registration of a non-smallest namespace, the code as written registers exactly as the corrected registration does |
| NotificationRegistry.InsertKey | libnymea-app/jsonrpc/jsonrpcclient.cpp:495 | Inserting a key adds exactly that key to the list |
| NotificationRegistry.Namespaces | libnymea-app/jsonrpc/jsonrpcclient.cpp:495 | QMultiMap::keys(): one namespace per entry, so the list holds each namespace as often as it has entries |
| NotificationRegistry.NotBelowTransitive | libnymea-app/jsonrpc/jsonrpcclient.cpp:495 | The non-strict QString order is transitive |
| NotificationRegistry.InsertKeyAscending | libnymea-app/jsonrpc/jsonrpcclient.cpp:495 | Inserting a key keeps a list in ascending order |
| NotificationRegistry.NamespacesAscending | libnymea-app/jsonrpc/jsonrpcclient.cpp:495 | QMultiMap::keys() lists the namespaces in ascending QString order |
| NotificationRegistry.NamespacesListsKeys | libnymea-app/jsonrpc/jsonrpcclient.cpp:495 | A namespace is in the key list exactly when some handler is registered for it |
| NotificationRegistry.RegisterAsWrittenDuplicates | libnymea-app/jsonrpc/jsonrpcclient.cpp:79-83 | As written, re-registering Subscriber 1 for "Users" while it also holds "Energy" adds a second entry, and "Users" notifications reach it twice |
| NotificationRegistry.RegisterAsWrittenSkipsSmallest | libnymea-app/jsonrpc/jsonrpcclient.cpp:79-82 | As written, a re-registration is skipped when the namespace is the handler's smallest |
| NotificationRegistry.RegisterIdempotent | libnymea-app/jsonrpc/jsonrpcclient.cpp:77-85 | Corrected registration keeps the registry free of repeated pairs, and registering twice equals registering once |
| NotificationRegistry.DeliveredOnce | libnymea-app/jsonrpc/jsonrpcclient.cpp:631-633 | In a registry without repeated pairs, a notification reaches each registered handler exactly once and unregistered ones never |
| NotificationRegistry.UnregisterRemovesOnly | libnymea-app/jsonrpc/jsonrpcclient.cpp:88-94 | After unregistering h, a handler receives a namespace's notifications exactly when it is not h and received them before |
| NotificationRegistry.UnregisterUndoesRegister | libnymea-app/jsonrpc/jsonrpcclient.cpp:77-94 | Unregistering after a registration gives the same registry as unregistering without it |
| NotificationRegistry.UnregisterAppend | libnymea-app/jsonrpc/jsonrpcclient.cpp:88-94 | Removal distributes over an appended entry |
| NotificationRegistry.UnregisterKeepsNoDuplicates | libnymea-app/jsonrpc/jsonrpcclient.cpp:88-94 | Unregistering keeps the registry free of repeated pairs |
| ResponseCache.CacheFileName | libnymea-app/jsonrpc/jsonrpcclient.cpp:106 | The cache file is named by the method, a dash, and ends with the server hash and ".cache" (the same name at line 683) |
| ResponseCache.Lookup | libnymea-app/jsonrpc/jsonrpcclient.cpp:102-111 | Methods without a server cache hash never hit; a hit comes from the file named after the server's current hash |
| ResponseCache.Store | libnymea-app/jsonrpc/jsonrpcclient.cpp:677-688 | Unlisted methods write nothing, existing files are never overwritten, and the only new file is the current one of this call |
| ResponseCache.FileNameDeterminesHash | libnymea-app/jsonrpc/jsonrpcclient.cpp:106 | Cache file names of the same call differ whenever the server hashes differ |
| ResponseCache.StaleEntryNeverRead | libnymea-app/jsonrpc/jsonrpcclient.cpp:102-111 | Once the server announces a new hash for a method, a reply stored under the old hash is never returned |
| ResponseCache.StoreThenLookup | libnymea-app/jsonrpc/jsonrpcclient.cpp:102-111 | A stored reply map is what the next identical call reads back under the same hash |
| ResponseCache.FirstWriterWins | libnymea-app/jsonrpc/jsonrpcclient.cpp:684-687 | Once the file exists, later replies do not change the cache |
| JsonRpcProtocol.QualifiedValid | libnymea-app/jsonrpc/jsonrpcclient.cpp:483-489 | A namespace and method name without dots form a valid method that splits back into them |
| JsonRpcProtocol.RequestShape | libnymea-app/jsonrpc/jsonrpcclient.cpp:847-856 | A request carries its id and "Namespace.Method", and carries params exactly when they are non-empty; it has no other keys |
| JsonRpcProtocol.TokenFrameShape | libnymea-app/jsonrpc/jsonrpcclient.cpp:520-526 | A sent request is written compact and carries the token next to every request field |
| JsonRpcProtocol.RequestMethodSplits | libnymea-app/jsonrpc/jsonrpcclient.cpp:851 | The method of a request splits back into its namespace and name |
| JsonRpcProtocol.NotificationStatusCovers | libnymea-app/jsonrpc/jsonrpcclient.cpp:494-514 | From protocol 3.1 the request lists exactly the registered namespaces plus "Users"; before 3.1 it is {"enabled": true} |
| JsonRpcProtocol.StringsRoundTrip | libnymea-app/jsonrpc/jsonrpcclient.cpp:511-512 | Namespace strings survive being packed into a list value |
| JsonRpcProtocol.PairTableLastWins | libnymea-app/jsonrpc/jsonrpcclient.cpp:703-706 | In a name/value table read from a list, a key maps to the value of its last occurrence |
| JsonRpcProtocol.PairTableKeys | libnymea-app/jsonrpc/jsonrpcclient.cpp:763-766 | Every key of the table comes from some list item |
| JsonRpcProtocol.ReadPairs | libnymea-app/jsonrpc/jsonrpcclient.cpp:703-706 | The insertion loop over the list builds that table |
| JsonRpcProtocol.PemKey | libnymea-app/jsonrpc/jsonrpcclient.cpp:531 | The key the model pins a certificate under, the uuid text with its braces dropped, has no braces and is no longer than that text |
| JsonRpcProtocol.PostShape | libnymea-app/jsonrpc/jsonrpcclient.cpp:124-126 | Posting a request takes the next id, files exactly one new pending call under it, keeps the others, and sends one token-carrying frame with that id |
| JsonRpcProtocol.PostFiles | libnymea-app/jsonrpc/jsonrpcclient.cpp:124-125 | The posted call is filed under the new id |
| JsonRpcProtocol.RetryReusesPendingId | libnymea-app/jsonrpc/jsonrpcclient.cpp:657-663 | After the id counter is reset to 0, the retried hello takes id 1; a call pending under 1 is replaced by it, so the pending ids do not grow |
| JsonRpcProtocol.PostKeeps | libnymea-app/jsonrpc/jsonrpcclient.cpp:124 | Posting keeps every other pending call and the correlation invariant |
| JsonRpcProtocol.PostWrites | libnymea-app/jsonrpc/jsonrpcclient.cpp:125 | Posting sends one frame carrying the new id and the token |
| JsonRpcProtocol.OpenSessionSends | libnymea-app/jsonrpc/jsonrpcclient.cpp:808-809 | Opening a session sends the notification status (only while the transport is up) and then the cloud query; these are the only new frames and they carry the token |
| JsonRpcProtocol.HandshakeSendsOnlyWhenAllowed | libnymea-app/jsonrpc/jsonrpcclient.cpp:785-809 | After the hello the client sends something exactly when no setup is needed and it either needs no authentication or has a stored token. It becomes authenticated only through a non-empty stored token |
| JsonRpcProtocol.DeliveriesAppend | libnymea-app/jsonrpc/jsonrpcclient.cpp:631-633 | Delivering to one more handler appends its delivery, except to the client itself |
| JsonRpcProtocol.DeliveriesReachHandlers | libnymea-app/jsonrpc/jsonrpcclient.cpp:631-633 | Deliveries go exactly to the listed handlers other than the client, through each handler's registered slot |
| JsonRpc.JsonRpcClient.AuthenticationRequired | libnymea-app/jsonrpc/jsonrpcclient.cpp:299-302 | Holding a token means authentication is not required; without one, it is required exactly when the server asked for it |
| JsonRpc.JsonRpcClient.EnsureServerVersion | libnymea-app/jsonrpc/jsonrpcclient.cpp:426-429 | True exactly when the negotiated protocol equals the given version or lies above it in QVersionNumber order |
| JsonRpc.JsonRpcClient.constructor | libnymea-app/jsonrpc/jsonrpcclient.cpp:55-75 | A new client has no pending calls, an empty buffer, and only its own "JSONRPC" handler registered |
| JsonRpc.JsonRpcClient.CreateReply | libnymea-app/jsonrpc/jsonrpcclient.cpp:481-490 | A method name that is not exactly "Namespace.Method" gets no id; otherwise the next id is taken and the call records both halves |
| JsonRpc.JsonRpcClient.SendRequest | libnymea-app/jsonrpc/jsonrpcclient.cpp:520-526 | Exactly one frame is sent: the request with the current token |
| JsonRpc.JsonRpcClient.SendCommand | libnymea-app/jsonrpc/jsonrpcclient.cpp:97-127 | A cache hit consumes an id, sends nothing, keeps the pending calls and reports the cached reply. A miss posts the request under the new id. The id is returned either way |
| JsonRpc.JsonRpcClient.CollectNamespaces | libnymea-app/jsonrpc/jsonrpcclient.cpp:494-497 | The loop copies QMultiMap::keys(): every registered namespace once per entry, in ascending order |
| JsonRpc.JsonRpcClient.CreateClientReply | libnymea-app/jsonrpc/jsonrpcclient.cpp:481-490 | A "JSONRPC" call takes the next id |
| JsonRpc.JsonRpcClient.PostClientRequest | libnymea-app/jsonrpc/jsonrpcclient.cpp:515-517 | A "JSONRPC" request is filed and sent without the cache |
| JsonRpc.JsonRpcClient.SetNotificationsEnabled | libnymea-app/jsonrpc/jsonrpcclient.cpp:492-518 | Sends the notification status for the registry's keys() in ascending order (plus "Users") while the transport is up, and nothing otherwise |
| JsonRpc.JsonRpcClient.GetCloudConnectionStatus | libnymea-app/jsonrpc/jsonrpcclient.cpp:175-180 | Sends the cloud status query |
| JsonRpc.JsonRpcClient.SendClientCommand | libnymea-app/jsonrpc/jsonrpcclient.cpp:97-127 | SendCommand for a "JSONRPC" method, with the same cache hit/miss behaviour |
| JsonRpc.JsonRpcClient.RegisterNotificationHandler | libnymea-app/jsonrpc/jsonrpcclient.cpp:77-86 | A pair already registered changes nothing. A new pair is appended with its slot, and the notification status is re-sent. No pair is ever registered twice (corrected registration, see Findings) |
| JsonRpc.JsonRpcClient.UnregisterNotificationHandler | libnymea-app/jsonrpc/jsonrpcclient.cpp:88-95 | The handler and its slot are gone from every namespace, the other entries stay, and the notification status is re-sent |
| JsonRpc.JsonRpcClient.SendUntokened | libnymea-app/jsonrpc/jsonrpcclient.cpp:387-389 | The call is filed under the next id and sent without a token, written indented rather than compact |
| JsonRpc.JsonRpcClient.Authenticate | libnymea-app/jsonrpc/jsonrpcclient.cpp:393-404 | Sends JSONRPC.Authenticate with user, password and device name, and waits for the authentication reply |
| JsonRpc.JsonRpcClient.CreateUser | libnymea-app/jsonrpc/jsonrpcclient.cpp:382-391 | Sends JSONRPC.CreateUser with user and password, and waits for the user-creation reply |
| JsonRpc.JsonRpcClient.RequestPushButtonAuth | libnymea-app/jsonrpc/jsonrpcclient.cpp:406-415 | Sends JSONRPC.RequestPushButtonAuth with the device name, and waits for its reply |
| JsonRpc.JsonRpcClient.SetupRemoteAccess | libnymea-app/jsonrpc/jsonrpcclient.cpp:417-424 | Returns the id of the request it sends |
| JsonRpc.JsonRpcClient.DeployCertificate | libnymea-app/jsonrpc/jsonrpcclient.cpp:319-329 | Consumes one request id |
| JsonRpc.JsonRpcClient.ServerQtVersion | libnymea-app/jsonrpc/jsonrpcclient.cpp:361-370 | Returns the known Qt version. When the version is unknown and the server speaks 4.0 or later, it sends `sendCommand("JSONRPC.Version", {}, getVersionsReply)`: on a cache hit the callback and responseReceived are queued with the cached reply, otherwise the request is filed and sent with the next id. In every other case nothing is sent or queued |
| JsonRpc.JsonRpcClient.GetVersionsReply | libnymea-app/jsonrpc/jsonrpcclient.cpp:249-256 | Records the server's Qt and Qt build versions from the reply |
| JsonRpc.JsonRpcClient.AcceptCertificate | libnymea-app/jsonrpc/jsonrpcclient.cpp:162-166 | Pins the certificate for the server, after which it no longer counts as a mismatch |
| JsonRpc.JsonRpcClient.TokenExists | libnymea-app/jsonrpc/jsonrpcclient.cpp:168-173 | True exactly when a token is stored for the uuid |
| JsonRpc.JsonRpcClient.ProcessAuthenticate | libnymea-app/jsonrpc/jsonrpcclient.cpp:431-456 | On success, adopts and stores the token, user and permissions, becomes authenticated and re-sends the notification status (no cloud query). On failure, it only reports authenticationFailed |
| JsonRpc.JsonRpcClient.AdoptToken | libnymea-app/jsonrpc/jsonrpcclient.cpp:433-449 | Token, user and permissions are taken from the reply, the token is stored for the server, and the client is authenticated |
| JsonRpc.JsonRpcClient.ProcessCreateUser | libnymea-app/jsonrpc/jsonrpcclient.cpp:458-469 | On "UserErrorNoError", setup is no longer required and success is reported; otherwise the error is reported and nothing else changes |
| JsonRpc.JsonRpcClient.ProcessRequestPushButtonAuth | libnymea-app/jsonrpc/jsonrpcclient.cpp:471-479 | On success, remembers the transaction id; on failure, reports the failure and keeps the pending transaction |
| JsonRpc.JsonRpcClient.IsCloudConnectedReply | libnymea-app/jsonrpc/jsonrpcclient.cpp:231-237 | Records the reported cloud connection state |
| JsonRpc.JsonRpcClient.SetNotificationsEnabledResponse | libnymea-app/jsonrpc/jsonrpcclient.cpp:182-190 | The client counts as connected, and connectedChanged is emitted only if it was not connected before |
| JsonRpc.JsonRpcClient.PushButtonAuthFinished | libnymea-app/jsonrpc/jsonrpcclient.cpp:195-219 | A foreign transaction id changes nothing. For our transaction the pending id is cleared; success stores the token, clears the setup flag and re-sends the notification status (no cloud query), and failure is reported |
| JsonRpc.JsonRpcClient.NotificationReceived | libnymea-app/jsonrpc/jsonrpcclient.cpp:192-229 | Only JSONRPC.PushButtonAuthFinished touches the authentication state. Only JSONRPC.CloudConnectedChanged touches the cloud state, which it sets from the notification |
| JsonRpc.JsonRpcClient.VerifyCertificate | libnymea-app/jsonrpc/jsonrpcclient.cpp:731-759 | Accepts unless an encrypted connection presents a certificate other than the pinned one. An unpinned server is pinned and reported. A mismatch disconnects and asks for verification with the fingerprint |
| JsonRpc.JsonRpcClient.CompleteHandshake | libnymea-app/jsonrpc/jsonrpcclient.cpp:785-809 | Ends the hello as the handshake decision says: wait for setup, use the stored token, or open the session |
| JsonRpc.JsonRpcClient.RecordHello | libnymea-app/jsonrpc/jsonrpcclient.cpp:696-713 | The setup, authentication and push-button flags, the uuid, the version, the experiences and the protocol version come from the hello reply |
| JsonRpc.JsonRpcClient.AcceptServer | libnymea-app/jsonrpc/jsonrpcclient.cpp:761-783 | The cache hashes, permissions and user come from the reply, handshakeReceived is emitted, and an unset host uuid is filled in |
| JsonRpc.JsonRpcClient.AcceptAndComplete | libnymea-app/jsonrpc/jsonrpcclient.cpp:761-809 | AcceptServer followed by CompleteHandshake |
| JsonRpc.JsonRpcClient.VerifyAndAccept | libnymea-app/jsonrpc/jsonrpcclient.cpp:731-809 | A certificate mismatch stops the handshake with nothing else changed; otherwise the server is accepted and the handshake completed |
| JsonRpc.JsonRpcClient.HelloChecks | libnymea-app/jsonrpc/jsonrpcclient.cpp:717-809 | A version outside the window reports it and changes nothing else; otherwise as VerifyAndAccept |
| JsonRpc.JsonRpcClient.HelloReply | libnymea-app/jsonrpc/jsonrpcclient.cpp:694-811 | The whole hello: the reply is recorded; a refused version or a certificate mismatch stops there with the session untouched; otherwise the server is accepted and the session opened per the handshake decision |
| JsonRpc.JsonRpcClient.RejectToken | libnymea-app/jsonrpc/jsonrpcclient.cpp:644-655 | After "unauthorized", authentication is required again, the client is not authenticated, and the stored token is cleared |
| JsonRpc.JsonRpcClient.RetryHello | libnymea-app/jsonrpc/jsonrpcclient.cpp:657-664 | A failed hello resets the id counter to 0 and sends the hello again (or takes it from the cache) |
| JsonRpc.JsonRpcClient.InvokeCaller | libnymea-app/jsonrpc/jsonrpcclient.cpp:670-672 | A callback with a receiver is invoked with the id and params; a call without one is not |
| JsonRpc.JsonRpcClient.DeliverReply | libnymea-app/jsonrpc/jsonrpcclient.cpp:670-672 | A caller's callback is invoked and the client's own state is untouched; the client's own callbacks only add events |
| JsonRpc.JsonRpcClient.OwnReply | libnymea-app/jsonrpc/jsonrpcclient.cpp:670-672 | Routes a reply to one of the client's own reply handlers; keeps the correlation invariant and only adds events |
| JsonRpc.JsonRpcClient.HandshakeReply | libnymea-app/jsonrpc/jsonrpcclient.cpp:670-672 | Routes hello, authentication, push-button and user-creation replies; keeps the correlation invariant and only adds events |
| JsonRpc.JsonRpcClient.ServiceReply | libnymea-app/jsonrpc/jsonrpcclient.cpp:670-672 | Routes notification-status, cloud, version, remote-access and certificate replies; keeps the correlation invariant and only adds events |
| JsonRpc.JsonRpcClient.CacheReply | libnymea-app/jsonrpc/jsonrpcclient.cpp:677-688 | The reply is stored as the cache's write-once rule says |
| JsonRpc.JsonRpcClient.HandleReply | libnymea-app/jsonrpc/jsonrpcclient.cpp:637-691 | A reply to an unknown id changes nothing. Otherwise responseReceived is the last event and the params are offered to the cache. For a call from another object that is not a failed hello, the call is removed and nothing is sent, its caller is invoked, and "unauthorized" clears the token while any other status keeps it |
| JsonRpc.JsonRpcClient.TakeReply | libnymea-app/jsonrpc/jsonrpcclient.cpp:638-665 | The pending call is removed and returned; "unauthorized" clears the stored token; only a failed hello sends anything |
| JsonRpc.JsonRpcClient.Respond | libnymea-app/jsonrpc/jsonrpcclient.cpp:670-688 | The callback runs, responseReceived is the last event, and the cache is written |
| JsonRpc.JsonRpcClient.AdoptUserChange | libnymea-app/jsonrpc/jsonrpcclient.cpp:619-628 | A Users.UserChanged notification for the current user replaces the permissions; anything else keeps them |
| JsonRpc.JsonRpcClient.DeliverToSubscriber | libnymea-app/jsonrpc/jsonrpcclient.cpp:631-632 | The notification is delivered through the handler's registered slot |
| JsonRpc.JsonRpcClient.Dispatch | libnymea-app/jsonrpc/jsonrpcclient.cpp:629-633 | Every listed subscriber receives the notification, in list order, and the client's own state is untouched |
| JsonRpc.JsonRpcClient.HandleNotification | libnymea-app/jsonrpc/jsonrpcclient.cpp:617-635 | Permissions follow a Users.UserChanged notification for the current user. The notification goes to every handler of its namespace |
| JsonRpc.JsonRpcClient.DataReceived | libnymea-app/jsonrpc/jsonrpcclient.cpp:588-612 | Data on a disconnected transport is dropped. Otherwise one pass runs over buffer plus data, and a document that is neither a notification nor a known reply changes nothing else |
| JsonRpc.JsonRpcClient.Process | libnymea-app/jsonrpc/jsonrpcclient.cpp:614-691 | Handling a document leaves the buffer alone, and a stray document changes nothing |
| JsonRpc.JsonRpcClient.RunQueuedPasses | libnymea-app/jsonrpc/jsonrpcclient.cpp:609-612 | Running the queued passes empties the queue and, while connected, delivers exactly the documents draining the buffer would |
| JsonRpc.JsonRpcClient.Receive | libnymea-app/jsonrpc/jsonrpcclient.cpp:588-612 | One read followed by the passes it queues: while connected, the documents delivered and the buffer left are those of draining the buffer plus the data, so reads in turn deliver Reassembler.Feed |
| JsonRpc.JsonRpcClient.Pass | libnymea-app/jsonrpc/jsonrpcclient.cpp:588-612 | One queued pass: the same step as DataReceived with no new data |
| JsonRpc.JsonRpcClient.OnInterfaceConnectedChanged | libnymea-app/jsonrpc/jsonrpcclient.cpp:555-586 | Going down ends the session with pending calls kept. Coming up clears the buffer, loads the host's stored token and sends the hello |
| JsonRpc.JsonRpcClient.EndSession | libnymea-app/jsonrpc/jsonrpcclient.cpp:558-569 | All session flags and Qt versions are reset, and connectedChanged(false) is emitted only if the client was connected |
| JsonRpc.JsonRpcClient.StartHandshake | libnymea-app/jsonrpc/jsonrpcclient.cpp:570-585 | The buffer is cleared, the token is taken from the host's settings, and the hello is sent with the locale |
| PowerLogs.Unpack | libnymea-app/energy/thingpowerlogs.cpp:114-122 | An entry takes its thing id and timestamp from the map |
| PowerLogs.Unpacked | libnymea-app/energy/thingpowerlogs.cpp:143-145 | One entry per list item, in order |
| PowerLogs.SampleRateOf | libnymea-app/energy/thingpowerlogs.cpp:187-188 | A sample rate name maps to its minutes, or to -1 if unknown |
| PowerLogs.FlattenAppend | libnymea-app/energy/thingpowerlogs.cpp:154-179 | Flattening distributes over an appended batch |
| PowerLogs.WellBatchedAppend | libnymea-app/energy/thingpowerlogs.cpp:154-179 | A non-empty batch of one timestamp, different from the last batch's, keeps the batching well formed |
| PowerLogs.Grouping | libnymea-app/energy/thingpowerlogs.cpp:154-175 | The open group is empty exactly before the first entry |
| PowerLogs.Batches | libnymea-app/energy/thingpowerlogs.cpp:154-179 | Entries yield batches exactly when there are entries |
| PowerLogs.GroupingNext | libnymea-app/energy/thingpowerlogs.cpp:160-172 | One loop step: an equal timestamp joins the open batch, and a new one closes it and starts another |
| PowerLogs.GroupingKeepsEntries | libnymea-app/energy/thingpowerlogs.cpp:154-175 | The grouping loop loses, duplicates and reorders nothing |
| PowerLogs.GroupingInvariant | libnymea-app/energy/thingpowerlogs.cpp:154-175 | Closed batches are non-empty, single-timestamp and differ from their neighbours; the open batch is single-timestamp |
| PowerLogs.BatchesPartition | libnymea-app/energy/thingpowerlogs.cpp:154-179 | The batches are exactly the logged entries, cut wherever the timestamp changes |
| PowerLogs.LiveAfter | libnymea-app/energy/thingpowerlogs.cpp:143-151 | The live table stays keyed by thing and gains exactly the things of the new entries |
| PowerLogs.LiveAfterLatest | libnymea-app/energy/thingpowerlogs.cpp:146-149 | A thing's live entry is its last entry in the list |
| PowerLogs.Announced | libnymea-app/energy/thingpowerlogs.cpp:150 | One liveEntryChanged per entry, in order |
| PowerLogs.AnnouncedAppend | libnymea-app/energy/thingpowerlogs.cpp:150 | One more entry adds one more signal |
| PowerLogs.LiveAfterAppend | libnymea-app/energy/thingpowerlogs.cpp:146-149 | One more entry overwrites its thing's live entry |
| PowerLogs.ThingPowerLogs.constructor | libnymea-app/energy/thingpowerlogs.cpp:40-49 | Empty logs, no live entries, no cache, timer stopped, the default sample rate |
| PowerLogs.ThingPowerLogs.AddEntries | libnymea-app/energy/thingpowerlogs.cpp:105-112 | The entries are appended to the list as one batch |
| PowerLogs.ThingPowerLogs.SetThingIds | libnymea-app/energy/thingpowerlogs.cpp:56-62 | The ids are set, and thingIdsChanged is emitted only on a real change |
| PowerLogs.ThingPowerLogs.TakeLiveEntries | libnymea-app/energy/thingpowerlogs.cpp:143-151 | The loop keeps each thing's latest current entry and announces each one |
| PowerLogs.ThingPowerLogs.AppendGrouped | libnymea-app/energy/thingpowerlogs.cpp:153-179 | The loop appends all logged entries, batched by timestamp |
| PowerLogs.ThingPowerLogs.FlushGroup | libnymea-app/energy/thingpowerlogs.cpp:177-179 | After the loop, a non-empty open group is appended as the last batch, so the log gains exactly the logged entries and their batches |
| PowerLogs.ThingPowerLogs.LogEntriesReceived | libnymea-app/energy/thingpowerlogs.cpp:141-180 | Live entries and their signals as TakeLiveEntries; logged entries as AppendGrouped |
| PowerLogs.ThingPowerLogs.NotificationReceived | libnymea-app/energy/thingpowerlogs.cpp:182-239 | Entries of unwatched things change nothing. A 1-minute sample becomes the thing's live entry. A sample of this model's rate starts the timer and joins the cache, or flushes the cache first when its timestamp differs. Nothing else touches the logs |
| PowerLogs.ThingPowerLogs.CacheTimerFired | libnymea-app/energy/thingpowerlogs.cpp:43-48 | A non-empty cache is appended as one batch and cleared; an empty one changes nothing |
| PowerLogs.ThingPowerLogs.Find | libnymea-app/energy/thingpowerlogs.cpp:74-93 | A returned index holds the entry. A miss means every match is shadowed by a later, older sample of the same thing; in a per-thing sorted list, a miss means there is no match |
| PowerLogs.FindMissesUnsorted | libnymea-app/energy/thingpowerlogs.cpp:74-93 | In an unsorted list the search can miss an entry that is present |
| Zigbee.StringToNodeState | libnymea-app/zigbee/zigbeenode.cpp:192-203 | Each state name maps to its state; every other string maps to the handled state |
| Zigbee.StringToNodeType | libnymea-app/zigbee/zigbeenode.cpp:205-214 | Coordinator and router names map to their types; every other string maps to end device |
| Zigbee.UIntOf | libnymea-app/zigbee/zigbeenode.cpp:218 | An in-range value is taken as it is |
| Zigbee.ToUInt16 | libnymea-app/zigbee/zigbeenode.cpp:218 | A 16-bit value survives the narrowing |
| Zigbee.LastSeenMsAsWritten | libnymea-app/zigbee/zigbeenode.cpp:227 | As written: the product modulo 2^32, never above the true product and congruent to it |
| Zigbee.Decode | libnymea-app/zigbee/zigbeenode.cpp:216-228 | A decoded node has a set (non-null) last-seen time whose seconds are the map's; an in-range network address is taken as it is; a missing state or type gives the handled state and an end device |
| Zigbee.FirstUpdateSignalsLastSeen | libnymea-app/zigbee/zigbeenode.cpp:216-228 | While the last-seen time is still null, an update always ends with a lastSeenChanged signal |
| Zigbee.LastSeenMs | libnymea-app/zigbee/zigbeenode.cpp:227 | Corrected: the millisecond time is exactly the seconds times 1000 |
| Zigbee.LastSeenWraps | libnymea-app/zigbee/zigbeenode.cpp:227 | As written, 1700000000 s becomes 3487918080 ms instead of 1700000000000 ms |
| Zigbee.LastSeenAgreesBelowWrap | libnymea-app/zigbee/zigbeenode.cpp:227 | As written is correct exactly for times below 4294968 s (about 50 days after the epoch) |
| Zigbee.ChangesNoneIffEqual | libnymea-app/zigbee/zigbeenode.cpp:216-228 | An update emits no signal exactly when nothing changes |
| Zigbee.ZigbeeNode.constructor | libnymea-app/zigbee/zigbeenode.cpp:33-39 | Network uuid and IEEE address set from the arguments, as at lines 33-39; the other properties start at the defaults given by the member initialisers of zigbeenode.h (see "## Left out"); no signals |
| Zigbee.ZigbeeNode.SetNetworkAddress | libnymea-app/zigbee/zigbeenode.cpp:56-63 | Sets the address; signals only if it changed |
| Zigbee.ZigbeeNode.SetType | libnymea-app/zigbee/zigbeenode.cpp:70-77 | Sets the type; signals only if it changed |
| Zigbee.ZigbeeNode.SetState | libnymea-app/zigbee/zigbeenode.cpp:84-91 | Sets the state; signals only if it changed |
| Zigbee.ZigbeeNode.SetManufacturer | libnymea-app/zigbee/zigbeenode.cpp:98-105 | Sets the manufacturer; signals only if it changed |
| Zigbee.ZigbeeNode.SetModel | libnymea-app/zigbee/zigbeenode.cpp:112-119 | Sets the model; signals only if it changed |
| Zigbee.ZigbeeNode.SetVersion | libnymea-app/zigbee/zigbeenode.cpp:126-133 | Sets the version; signals only if it changed |
| Zigbee.ZigbeeNode.SetRxOnWhenIdle | libnymea-app/zigbee/zigbeenode.cpp:140-147 | Sets rx-on-when-idle; signals only if it changed |
| Zigbee.ZigbeeNode.SetReachable | libnymea-app/zigbee/zigbeenode.cpp:154-161 | Sets reachability; signals only if it changed |
| Zigbee.ZigbeeNode.SetLqi | libnymea-app/zigbee/zigbeenode.cpp:168-176 | Sets the link quality; signals only if it changed |
| Zigbee.ZigbeeNode.SetLastSeen | libnymea-app/zigbee/zigbeenode.cpp:183-190 | Sets the last-seen time; signals only if it changed |
| Zigbee.ZigbeeNode.UpdateHead | libnymea-app/zigbee/zigbeenode.cpp:218-222 | The first five properties take the new values, with their change signals in order |
| Zigbee.ZigbeeNode.UpdateTail | libnymea-app/zigbee/zigbeenode.cpp:223-227 | The last five properties take the new values, with their change signals in order |
| Zigbee.ZigbeeNode.UpdateNodeProperties | libnymea-app/zigbee/zigbeenode.cpp:216-228 | The node ends with exactly the decoded properties and emits one signal per changed property, in source order |

## Left out

- The transports and their I/O are not modelled: sockets, TLS, reconnects, the
  host list, and the connect and disconnect calls. A disconnect request
  appears as an event, and the peer certificate and its digest are inputs.
- JSON parsing and serialisation are a parser function. The only thing assumed
  of it is that the empty text is not a document. Floating-point values stay
  opaque.
- The QVariant accessors (`AsString`, `AsInt`, `AsBool` and the others) give
  the default value for a variant of another type. Qt converts some of those
  (a number to its decimal string, a numeric string to an int, a non-zero
  number to true); the model does not, so it is exact only when the server
  sends each field with its documented JSON type.
- The MD5 of a call is a hash function given to the client. QSettings and the
  cache directory are maps.
- Logging, the `qCDebug`/`qCWarning` output and the QML-facing getters are not
  modelled. Property-change signals that carry no data are also left out
  (pushButtonAuthAvailableChanged, permissionsChanged,
  initialSetupRequiredChanged, authenticationRequiredChanged).
- certificateIssuerInfo: only the fingerprint is modelled. The issuer's name
  fields come from Qt's certificate parser, which is not part of this model.
- Queued invocations (`QMetaObject::invokeMethod(..., Qt::QueuedConnection)`)
  are a counter of pending passes plus the method that runs them. Their
  interleaving with other Qt events is not modelled.
- Memory ownership (`deleteLater`, reply objects, parent pointers) is not
  modelled.
- The power-log base class `EnergyLogs` is not part of this model. Its
  `appendEntries` is modelled as appending to the list and recording the batch.
  ThingPowerLogEntry's doubles are opaque values. The timer's 2000 ms interval
  is a flag and an explicit `CacheTimerFired`.
- The Zigbee node's QDateTime is either null or a count of milliseconds since
  the epoch. Time zones and QDateTime's own arithmetic are not modelled.
- Zigbee.Decode: takes the last-seen time through the corrected LastSeenMs, not
  the 32-bit wrapping product the code computes (see "## Findings"). For times
  from 4294968 s on, the code as written stores a different time; that value is
  LastSeenMsAsWritten.
- Zigbee.ZigbeeNode.UpdateNodeProperties: sets the decoded properties, so its
  last-seen time is the corrected one described under Zigbee.Decode.
- The power-log thing ids are strings compared as given. In the code they are
  QUuid values, and `toUuid()` reads braced and unbraced, upper- and lower-case
  spellings of one uuid as the same value, and any unparsable string as the
  null uuid. The model treats two spellings of one uuid as two things. It
  assumes the server spells each thing's id the same way every time.
- PowerLogs.ThingPowerLogs.NotificationReceived: decides whether a thing is
  watched by comparing id strings, not QUuid values.
- PowerLogs.ThingPowerLogs.Find: matches a thing by its id string, not its
  QUuid value.
- PowerLogs.ThingPowerLogs.SetThingIds: detects a real change by comparing the
  id strings, not the QUuid values.
- PowerLogs.Unpack: takes the thing id string as sent, without `toUuid()`.
- PowerLogs.LiveAfter: keys the live entries by id string, not QUuid value.
- PowerLogs.ThingPowerLogs.TakeLiveEntries: keeps one live entry per id string,
  not per QUuid value.
- JsonRpc.JsonRpcClient.RegisterNotificationHandler: follows the corrected
  registration Register (see "## Findings"), which skips exactly the pairs
  already present. The code skips exactly when the handler's key(), its
  smallest namespace or "" when it is registered nowhere, equals the new
  namespace. So the code records a pair a second time when the namespace is
  not the handler's smallest, and it never registers an unregistered handler
  for "". RegisterAsWritten, RegisterAsWrittenDuplicates,
  RegisterAsWrittenSkipsEmpty and RegisterAsWrittenAgrees state that behaviour.
- JsonRpc.JsonRpcClient.SendCommand: requires a method of the form
  "Namespace.Method". For any other name the code dereferences the null reply
  that createReply returns, so the model does not let callers reach that crash.
- JsonRpc.JsonRpcClient.HandleReply: reply params are stored in the cache
  whatever the reply's status, as the code does (lines 677-688). It does not
  keep only successful replies. The contract does not say that the call is
  removed when its callback is one of the client's own, or when a failed hello
  is retried. Those callbacks send new requests, and after the retry resets the
  id counter to 0 a new request can be filed under the same id. For those
  replies it promises the invariant, the final responseReceived event and the
  cache write only.
- JsonRpc.JsonRpcClient.IsCloudConnectedReply: keeps the state's name as a
  string. QMetaEnum's conversion to the enum value is not modelled.
- JsonRpc.JsonRpcClient.TokenExists: looks the uuid up as given. QUuid's
  normalisation to the braced form is not modelled.
- JsonRpcProtocol.PemKey: drops the braces from the uuid text as given. The
  code passes the text through `QUuid` first (`loadPem` and `storePem` take a
  `const QUuid &`, lines 528-546), so the file name is the canonical lower-case
  form. Another spelling of the same uuid gets another key here. In the code,
  every unparsable text shares the null uuid's key, which can be longer than
  the text.
- JsonRpc.JsonRpcClient.VerifyCertificate: looks the pin up under PemKey of the
  uuid text, not its canonical QUuid form.
- JsonRpc.JsonRpcClient.AcceptCertificate: pins under PemKey of the uuid text,
  not its canonical QUuid form.
- JsonRpc.JsonRpcClient.AcceptServer: fills in the host uuid with the server's
  uuid text. The code stores it as a QUuid (line 782), which normalises the
  spelling.
- JsonRpc.JsonRpcClient.StartHandshake: reads the token under HostKey, the host
  uuid as stored. The code uses `currentHost()->uuid().toString()` (line 578),
  the braced lower-case form, while AdoptToken stores the token under the
  server's uuid text as received (line 443). The model is exact when the server
  sends its uuid in that canonical form.
- JsonRpc.JsonRpcClient.SendCommand: a cache hit only records the queued
  callback and responseReceived as events (lines 114-118). The queued
  invocations are not run afterwards. For the client's own "JSONRPC" methods
  the server may list in its cache hashes (`JSONRPC.Version` from
  ServerQtVersion, `JSONRPC.Hello`), the model therefore never applies the
  cached reply. The code later runs the slot, which updates the Qt versions or
  continues the handshake.
- JsonRpc.JsonRpcClient.SetupRemoteAccess: the contract gives only the returned
  id, not the request's contents.
- JsonRpc.JsonRpcClient.DeployCertificate: the contract gives only the
  consumed id, not the request's contents.
- JsonRpc.JsonRpcClient.DeliverReply: for the client's own callbacks, promises
  only the correlation invariant and that events are only added. The
  individual reply handlers carry the exact contracts.
- JsonRpc.JsonRpcClient.OwnReply: promises only the correlation invariant and
  that events are only added.
- JsonRpc.JsonRpcClient.HandshakeReply: promises only the correlation invariant
  and that events are only added.
- JsonRpc.JsonRpcClient.ServiceReply: promises only the correlation invariant
  and that events are only added.
- JsonRpc.JsonRpcClient.Dispatch: when the client itself is among the handlers,
  promises only the invariant and that events are only added. The client's own
  slot is NotificationReceived.
- JsonRpc.JsonRpcClient.HandleNotification: for the "JSONRPC" namespace,
  promises only the invariant, the permission update and that events are only
  added.
- Reassembler.ChunkedStream: assumes of the JSON parser, for each line the
  server writes, that a newline before or after the line does not change what
  it parses to, and that no proper prefix of the line, with or without a
  newline before it, parses. Both hold of `QJsonDocument::fromJson` for a
  compact JSON object; the parser itself is not part of this model. The
  property is also stated only for lines with no "}\n{" inside. Compact JSON
  has none, because it writes a newline inside a string as an escape.
- Zigbee.ZigbeeNode.constructor: zigbeenode.h is not part of this model. The
  defaults (network address 0, end device, uninitialized, empty manufacturer,
  model and version, not rx-on-when-idle, unreachable, lqi 0, null last-seen
  time) are the initial values the node's getters report before the first
  update, taken as the header's member initialisers.
- JsonRpc.JsonRpcClient.RunQueuedPasses: the drain is stated for a start where
  nothing is left half-done (a pass queued, or a buffer on which a pass yields
  nothing). Documents handled between passes can change the pending calls but
  not the buffer.

## Findings

| source | as written | input that shows it | evidently intended | confidence | as-written member | corrected member |
|---|---|---|---|---|---|---|
| libnymea-app/zigbee/zigbeenode.cpp:227 | `lastSeen` seconds are converted to `uint` and multiplied by 1000 in 32-bit arithmetic, which wraps | a node map with lastSeen 1700000000 gives 3487918080 ms (mid-February 1970) | the last-seen time in milliseconds, 1700000000000 | high, not executed | Zigbee.LastSeenWraps | Zigbee.LastSeenMs |
| libnymea-app/jsonrpc/jsonrpcclient.cpp:79 | a registration is skipped only when `key(handler)`, the handler's smallest namespace, equals the new namespace | Subscriber 1 holds "Energy" and "Users"; registering it again for "Users" adds a second entry, and every "Users" notification reaches it twice | registering a (namespace, handler) pair that is already present changes nothing | medium, not executed | NotificationRegistry.RegisterAsWrittenDuplicates | NotificationRegistry.RegisterIdempotent |
| libnymea-app/jsonrpc/jsonrpcclient.cpp:79 | `key(handler)` returns the empty string for a handler registered nowhere, which the guard takes for an existing registration | registering a new handler for the namespace "" leaves the registry unchanged | a handler registered nowhere is always recorded | low, not executed | NotificationRegistry.RegisterAsWrittenSkipsEmpty | NotificationRegistry.Register |
