/**
 * A node of a Zigbee network as the app mirrors it: two identity fields
 * fixed at construction and ten properties, each with a setter that changes
 * the property and announces the new value only when it differs from the
 * current one.  A node map from the server updates all ten at once.
 */
module Zigbee {
  import opened Common

  type UInt16 = n: nat | n < 0x1_0000
  type UInt32 = n: nat | n < 0x1_0000_0000

  datatype NodeType = Coordinator | Router | EndDevice
  datatype NodeState = Uninitialized | Initializing | Initialized | Handled

  /** The change signals a node emits, each carrying the new value. */
  datatype NodeSignal =
    | NetworkAddressChanged(networkAddress: UInt16)
    | TypeChanged(nodeType: NodeType)
    | StateChanged(state: NodeState)
    | ManufacturerChanged(manufacturer: string)
    | ModelChanged(model: string)
    | VersionChanged(version: string)
    | RxOnWhenIdleChanged(rxOnWhenIdle: bool)
    | ReachableChanged(reachable: bool)
    | LqiChanged(lqi: UInt32)
    | LastSeenChanged(lastSeen: DateTime)

  /** A QDateTime: null until first set, else milliseconds since the epoch. */
  datatype DateTime = NullDateTime | MsSinceEpoch(ms: int)

  /** The ten mutable properties of a node. */
  datatype Properties = Properties(
    networkAddress: UInt16, nodeType: NodeType, state: NodeState,
    manufacturer: string, model: string, version: string,
    rxOnWhenIdle: bool, reachable: bool, lqi: UInt32, lastSeen: DateTime)

  /** `stringToNodeState`: three names are recognised, every other string means Handled. */
  function StringToNodeState(s: string): (r: NodeState)
    ensures r == Uninitialized <==> s == "ZigbeeNodeStateUninitialized"
    ensures r == Initializing <==> s == "ZigbeeNodeStateInitializing"
    ensures r == Initialized <==> s == "ZigbeeNodeStateInitialized"
    ensures r == Handled <==> s !in {"ZigbeeNodeStateUninitialized", "ZigbeeNodeStateInitializing", "ZigbeeNodeStateInitialized"}
  {
    if s == "ZigbeeNodeStateUninitialized" then Uninitialized
    else if s == "ZigbeeNodeStateInitializing" then Initializing
    else if s == "ZigbeeNodeStateInitialized" then Initialized
    else Handled
  }

  /** `stringToNodeType`: two names are recognised, every other string means an end device. */
  function StringToNodeType(s: string): (r: NodeType)
    ensures r == Coordinator <==> s == "ZigbeeNodeTypeCoordinator"
    ensures r == Router <==> s == "ZigbeeNodeTypeRouter"
    ensures r == EndDevice <==> s != "ZigbeeNodeTypeCoordinator" && s != "ZigbeeNodeTypeRouter"
  {
    if s == "ZigbeeNodeTypeCoordinator" then Coordinator
    else if s == "ZigbeeNodeTypeRouter" then Router
    else EndDevice
  }

  /** `QVariant::toUInt` of a number: its value modulo 2^32. */
  function UIntOf(v: Value): (u: UInt32)
    ensures 0 <= AsInt(v) < 0x1_0000_0000 ==> u == AsInt(v)
  {
    AsInt(v) % 0x1_0000_0000
  }

  /** A `uint` passed where a `quint16` is expected keeps its low 16 bits. */
  function ToUInt16(u: UInt32): (a: UInt16)
    ensures u < 0x1_0000 ==> a == u
  {
    u % 0x1_0000
  }

  /** The last-seen time as written: seconds times 1000 in 32-bit unsigned arithmetic. */
  function LastSeenMsAsWritten(seconds: UInt32): (ms: UInt32)
    ensures ms <= seconds * 1000
    ensures (seconds * 1000 - ms) % 0x1_0000_0000 == 0
  {
    (seconds * 1000) % 0x1_0000_0000
  }

  /** The last-seen time as intended: the server's seconds in milliseconds. */
  function LastSeenMs(seconds: UInt32): (ms: int)
    ensures ms / 1000 == seconds && ms % 1000 == 0
  {
    seconds * 1000
  }

  /** Only seconds below 4294968 (50 days after the epoch) survive the 32-bit product. */
  lemma LastSeenWraps()
    ensures LastSeenMsAsWritten(1700000000) == 3487918080
    ensures LastSeenMsAsWritten(1700000000) != LastSeenMs(1700000000)
    ensures LastSeenMs(1700000000) == 1700000000000
  {
  }

  /** Below the wrap bound the code as written and the intended conversion agree. */
  lemma LastSeenAgreesBelowWrap(seconds: UInt32)
    ensures seconds < 4294968 <==> LastSeenMsAsWritten(seconds) == LastSeenMs(seconds)
  {
    if seconds >= 4294968 {
      assert seconds * 1000 >= 0x1_0000_0000;
      assert LastSeenMsAsWritten(seconds) < 0x1_0000_0000 <= LastSeenMs(seconds);
    }
  }

  /** The properties a node map describes (`updateNodeProperties`). */
  function Decode(nodeMap: Document): (p: Properties)
    ensures p.lastSeen != NullDateTime && p.lastSeen.ms / 1000 == UIntOf(Get(nodeMap, "lastSeen")) && p.lastSeen.ms % 1000 == 0
    ensures UIntOf(Get(nodeMap, "networkAddress")) < 0x1_0000 ==> p.networkAddress == UIntOf(Get(nodeMap, "networkAddress"))
    ensures "state" !in nodeMap ==> p.state == Handled
    ensures "type" !in nodeMap ==> p.nodeType == EndDevice
  {
    Properties(
      ToUInt16(UIntOf(Get(nodeMap, "networkAddress"))),
      StringToNodeType(AsString(Get(nodeMap, "type"))),
      StringToNodeState(AsString(Get(nodeMap, "state"))),
      AsString(Get(nodeMap, "manufacturer")),
      AsString(Get(nodeMap, "model")),
      AsString(Get(nodeMap, "version")),
      AsBool(Get(nodeMap, "receiverOnWhileIdle")),
      AsBool(Get(nodeMap, "reachable")),
      UIntOf(Get(nodeMap, "lqi")),
      MsSinceEpoch(LastSeenMs(UIntOf(Get(nodeMap, "lastSeen")))))
  }

  /** The signal a setter emits: one when the value changed, none otherwise. */
  function Announce(changed: bool, signal: NodeSignal): seq<NodeSignal>
  {
    if changed then [signal] else []
  }

  /** The signals of the first five setters `updateNodeProperties` calls, going from `a` to `b`. */
  function ChangesHead(a: Properties, b: Properties): seq<NodeSignal>
  {
    Announce(a.networkAddress != b.networkAddress, NetworkAddressChanged(b.networkAddress))
    + Announce(a.nodeType != b.nodeType, TypeChanged(b.nodeType))
    + Announce(a.state != b.state, StateChanged(b.state))
    + Announce(a.manufacturer != b.manufacturer, ManufacturerChanged(b.manufacturer))
    + Announce(a.model != b.model, ModelChanged(b.model))
  }

  /** The signals of the last five setters. */
  function ChangesTail(a: Properties, b: Properties): seq<NodeSignal>
  {
    Announce(a.version != b.version, VersionChanged(b.version))
    + Announce(a.rxOnWhenIdle != b.rxOnWhenIdle, RxOnWhenIdleChanged(b.rxOnWhenIdle))
    + Announce(a.reachable != b.reachable, ReachableChanged(b.reachable))
    + Announce(a.lqi != b.lqi, LqiChanged(b.lqi))
    + Announce(a.lastSeen != b.lastSeen, LastSeenChanged(b.lastSeen))
  }

  /** The signals of going from `a` to `b` through the ten setters, in the order `updateNodeProperties` calls them. */
  function Changes(a: Properties, b: Properties): seq<NodeSignal>
  {
    ChangesHead(a, b) + ChangesTail(a, b)
  }

  /** An update signals nothing exactly when it changes nothing. */
  lemma ChangesNoneIffEqual(a: Properties, b: Properties)
    ensures Changes(a, b) == [] <==> a == b
  {
  }

  /** A node's first update always announces its last-seen time, which starts out null. */
  lemma FirstUpdateSignalsLastSeen(a: Properties, nodeMap: Document)
    requires a.lastSeen == NullDateTime
    ensures Changes(a, Decode(nodeMap)) != []
    ensures Changes(a, Decode(nodeMap))[|Changes(a, Decode(nodeMap))| - 1] == LastSeenChanged(Decode(nodeMap).lastSeen)
  {
  }

  class ZigbeeNode {
    const networkUuid: string
    const ieeeAddress: string
    var networkAddress: UInt16
    var nodeType: NodeType
    var state: NodeState
    var manufacturer: string
    var model: string
    var version: string
    var rxOnWhenIdle: bool
    var reachable: bool
    var lqi: UInt32
    var lastSeen: DateTime
    var signals: seq<NodeSignal>

    function Props(): Properties
      reads this
    {
      Properties(networkAddress, nodeType, state, manufacturer, model, version, rxOnWhenIdle, reachable, lqi, lastSeen)
    }

    /** A node of a network, identified by its IEEE address; the properties start at their defaults. */
    constructor(networkUuid: string, ieeeAddress: string)
      ensures this.networkUuid == networkUuid && this.ieeeAddress == ieeeAddress
      ensures Props() == Properties(0, EndDevice, Uninitialized, "", "", "", false, false, 0, NullDateTime) && signals == []
    {
      this.networkUuid := networkUuid;
      this.ieeeAddress := ieeeAddress;
      networkAddress := 0;
      nodeType := EndDevice;
      state := Uninitialized;
      manufacturer := "";
      model := "";
      version := "";
      rxOnWhenIdle := false;
      reachable := false;
      lqi := 0;
      lastSeen := NullDateTime;
      signals := [];
    }

    method SetNetworkAddress(a: UInt16)
      modifies this`networkAddress, this`signals
      ensures Props() == old(Props()).(networkAddress := a)
      ensures signals == old(signals) + Announce(old(networkAddress) != a, NetworkAddressChanged(a))
    {
      if networkAddress == a {
        return;
      }
      networkAddress := a;
      signals := signals + [NetworkAddressChanged(a)];
    }

    method SetType(t: NodeType)
      modifies this`nodeType, this`signals
      ensures Props() == old(Props()).(nodeType := t)
      ensures signals == old(signals) + Announce(old(nodeType) != t, TypeChanged(t))
    {
      if nodeType == t {
        return;
      }
      nodeType := t;
      signals := signals + [TypeChanged(t)];
    }

    method SetState(s: NodeState)
      modifies this`state, this`signals
      ensures Props() == old(Props()).(state := s)
      ensures signals == old(signals) + Announce(old(state) != s, StateChanged(s))
    {
      if state == s {
        return;
      }
      state := s;
      signals := signals + [StateChanged(s)];
    }

    method SetManufacturer(m: string)
      modifies this`manufacturer, this`signals
      ensures Props() == old(Props()).(manufacturer := m)
      ensures signals == old(signals) + Announce(old(manufacturer) != m, ManufacturerChanged(m))
    {
      if manufacturer == m {
        return;
      }
      manufacturer := m;
      signals := signals + [ManufacturerChanged(m)];
    }

    method SetModel(m: string)
      modifies this`model, this`signals
      ensures Props() == old(Props()).(model := m)
      ensures signals == old(signals) + Announce(old(model) != m, ModelChanged(m))
    {
      if model == m {
        return;
      }
      model := m;
      signals := signals + [ModelChanged(m)];
    }

    method SetVersion(v: string)
      modifies this`version, this`signals
      ensures Props() == old(Props()).(version := v)
      ensures signals == old(signals) + Announce(old(version) != v, VersionChanged(v))
    {
      if version == v {
        return;
      }
      version := v;
      signals := signals + [VersionChanged(v)];
    }

    method SetRxOnWhenIdle(b: bool)
      modifies this`rxOnWhenIdle, this`signals
      ensures Props() == old(Props()).(rxOnWhenIdle := b)
      ensures signals == old(signals) + Announce(old(rxOnWhenIdle) != b, RxOnWhenIdleChanged(b))
    {
      if rxOnWhenIdle == b {
        return;
      }
      rxOnWhenIdle := b;
      signals := signals + [RxOnWhenIdleChanged(b)];
    }

    method SetReachable(b: bool)
      modifies this`reachable, this`signals
      ensures Props() == old(Props()).(reachable := b)
      ensures signals == old(signals) + Announce(old(reachable) != b, ReachableChanged(b))
    {
      if reachable == b {
        return;
      }
      reachable := b;
      signals := signals + [ReachableChanged(b)];
    }

    method SetLqi(q: UInt32)
      modifies this`lqi, this`signals
      ensures Props() == old(Props()).(lqi := q)
      ensures signals == old(signals) + Announce(old(lqi) != q, LqiChanged(q))
    {
      if lqi == q {
        return;
      }
      lqi := q;
      signals := signals + [LqiChanged(q)];
    }

    method SetLastSeen(t: DateTime)
      modifies this`lastSeen, this`signals
      ensures Props() == old(Props()).(lastSeen := t)
      ensures signals == old(signals) + Announce(old(lastSeen) != t, LastSeenChanged(t))
    {
      if lastSeen == t {
        return;
      }
      lastSeen := t;
      signals := signals + [LastSeenChanged(t)];
    }

    /** The first five setters of `updateNodeProperties`. */
    method UpdateHead(p: Properties)
      modifies this`networkAddress, this`nodeType, this`state, this`manufacturer, this`model, this`signals
      ensures Props() == old(Props()).(networkAddress := p.networkAddress, nodeType := p.nodeType, state := p.state, manufacturer := p.manufacturer, model := p.model)
      ensures signals == old(signals) + ChangesHead(old(Props()), p)
    {
      ghost var before := Props();
      SetNetworkAddress(p.networkAddress);
      ghost var announced := Announce(before.networkAddress != p.networkAddress, NetworkAddressChanged(p.networkAddress));
      Reassociate(old(signals), announced, Announce(before.nodeType != p.nodeType, TypeChanged(p.nodeType)));
      SetType(p.nodeType);
      announced := announced + Announce(before.nodeType != p.nodeType, TypeChanged(p.nodeType));
      Reassociate(old(signals), announced, Announce(before.state != p.state, StateChanged(p.state)));
      SetState(p.state);
      announced := announced + Announce(before.state != p.state, StateChanged(p.state));
      Reassociate(old(signals), announced, Announce(before.manufacturer != p.manufacturer, ManufacturerChanged(p.manufacturer)));
      SetManufacturer(p.manufacturer);
      announced := announced + Announce(before.manufacturer != p.manufacturer, ManufacturerChanged(p.manufacturer));
      Reassociate(old(signals), announced, Announce(before.model != p.model, ModelChanged(p.model)));
      SetModel(p.model);
      announced := announced + Announce(before.model != p.model, ModelChanged(p.model));
    }

    /** The last five setters of `updateNodeProperties`. */
    method UpdateTail(p: Properties)
      modifies this`version, this`rxOnWhenIdle, this`reachable, this`lqi, this`lastSeen, this`signals
      ensures Props() == old(Props()).(version := p.version, rxOnWhenIdle := p.rxOnWhenIdle, reachable := p.reachable, lqi := p.lqi, lastSeen := p.lastSeen)
      ensures signals == old(signals) + ChangesTail(old(Props()), p)
    {
      ghost var before := Props();
      SetVersion(p.version);
      ghost var announced := Announce(before.version != p.version, VersionChanged(p.version));
      Reassociate(old(signals), announced, Announce(before.rxOnWhenIdle != p.rxOnWhenIdle, RxOnWhenIdleChanged(p.rxOnWhenIdle)));
      SetRxOnWhenIdle(p.rxOnWhenIdle);
      announced := announced + Announce(before.rxOnWhenIdle != p.rxOnWhenIdle, RxOnWhenIdleChanged(p.rxOnWhenIdle));
      Reassociate(old(signals), announced, Announce(before.reachable != p.reachable, ReachableChanged(p.reachable)));
      SetReachable(p.reachable);
      announced := announced + Announce(before.reachable != p.reachable, ReachableChanged(p.reachable));
      Reassociate(old(signals), announced, Announce(before.lqi != p.lqi, LqiChanged(p.lqi)));
      SetLqi(p.lqi);
      announced := announced + Announce(before.lqi != p.lqi, LqiChanged(p.lqi));
      Reassociate(old(signals), announced, Announce(before.lastSeen != p.lastSeen, LastSeenChanged(p.lastSeen)));
      SetLastSeen(p.lastSeen);
      announced := announced + Announce(before.lastSeen != p.lastSeen, LastSeenChanged(p.lastSeen));
    }

    /**
     * `updateNodeProperties`: the ten setters in turn, so the node ends with
     * the decoded properties and announces exactly those that changed.
     */
    method UpdateNodeProperties(nodeMap: Document)
      modifies this`networkAddress, this`nodeType, this`state, this`manufacturer, this`model, this`version,
               this`rxOnWhenIdle, this`reachable, this`lqi, this`lastSeen, this`signals
      ensures Props() == Decode(nodeMap)
      ensures signals == old(signals) + Changes(old(Props()), Decode(nodeMap))
    {
      var p := Decode(nodeMap);
      UpdateHead(p);
      UpdateTail(p);
      Reassociate(old(signals), ChangesHead(old(Props()), p), ChangesTail(old(Props()), p));
    }
  }
}
