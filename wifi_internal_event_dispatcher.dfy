/**
 * Bookkeeping of the internal Wi-Fi event dispatcher: three callback registries (station, scan,
 * hotspot) keyed by the remote object that registered them, one "single" callback slot per kind,
 * a FIFO queue of event messages, and the routing that turns one queued message into the ordered
 * list of common events published and callback methods invoked.
 *
 * Remote objects and callbacks are opaque ids; 0 stands for the null pointer.
 */
module InternalEventDispatcher {
  import opened WifiTypes
  import opened KeyOrder

  type RemoteId = int
  type CallbackId = int

  const NULL_REMOTE: RemoteId := 0
  const NULL_CALLBACK: CallbackId := 0

  /** Remote object to the callback it registered (a std::map, iterated in key order). */
  type Registry = map<RemoteId, CallbackId>

  // Message codes. Their values live in a header that is not part of this model; the order is the
  // one the routing ranges rely on: the station codes, then scan, then the hotspot codes.
  const WIFI_CBK_MSG_STATE_CHANGE: int := 0x1001
  const WIFI_CBK_MSG_CONNECTION_CHANGE: int := 0x1002
  const WIFI_CBK_MSG_RSSI_CHANGE: int := 0x1003
  const WIFI_CBK_MSG_STREAM_DIRECTION: int := 0x1004
  const WIFI_CBK_MSG_WPS_STATE_CHANGE: int := 0x1005
  const WIFI_CBK_MSG_SCAN_STATE_CHANGE: int := 0x1006
  const WIFI_CBK_MSG_HOTSPOT_STATE_CHANGE: int := 0x1007
  const WIFI_CBK_MSG_HOTSPOT_STATE_JOIN: int := 0x1008
  const WIFI_CBK_MSG_HOTSPOT_STATE_LEAVE: int := 0x1009

  /** Opaque payloads, passed through unchanged. */
  type LinkedInfo = int
  type StationInfo = int

  datatype WifiEventCallbackMsg = WifiEventCallbackMsg(
    msgCode: int,
    msgData: int,
    pinCode: string,
    linkInfo: LinkedInfo,
    staInfo: StationInfo)

  /** A call of one method of a callback object, with its arguments. */
  datatype CallbackMethod =
    | OnWifiStateChanged(state: int)
    | OnWifiConnectionChanged(state: int, info: LinkedInfo)
    | OnWifiRssiChanged(rssi: int)
    | OnStreamChanged(direction: int)
    | OnWifiWpsStateChanged(state: int, pinCode: string)
    | OnWifiScanStateChanged(state: int)
    | OnHotspotStateChanged(state: int)
    | OnHotspotStaJoin(info: StationInfo)
    | OnHotspotStaLeave(info: StationInfo)

  /** A system-wide common event, with the event data string it is published with. */
  datatype CommonEvent =
    | PowerStateChanged(code: int, data: string)
    | ConnectionStateChanged(code: int, data: string)
    | RssiValueChanged(code: int, data: string)
    | ScanStateChanged(code: int, data: string)

  /** What dispatching a message does, in order: publish a common event or call a callback. */
  datatype Effect = Publish(event: CommonEvent) | Notify(target: CallbackId, call: CallbackMethod)

  // ---------------------------------------------------------------------------------------------
  // Registries.

  /** What registration maintains: no null remote is a key and no callback is null. */
  predicate RegistryValid(reg: Registry)
  {
    NULL_REMOTE !in reg && forall r :: r in reg ==> reg[r] != NULL_CALLBACK
  }

  /** Add*Callback: rejects a null remote or callback with 1, otherwise inserts or overwrites. */
  function AddCallback(reg: Registry, remote: RemoteId, callback: CallbackId): (r: (int, Registry))
    ensures r.0 == 0 || r.0 == 1
    ensures r.0 == 1 <==> remote == NULL_REMOTE || callback == NULL_CALLBACK
    ensures r.0 == 1 ==> r.1 == reg
    ensures r.0 == 0 ==> && r.1.Keys == reg.Keys + {remote}
                         && r.1[remote] == callback
                         && forall k :: k in reg && k != remote ==> r.1[k] == reg[k]
  {
    if remote == NULL_REMOTE || callback == NULL_CALLBACK then (1, reg)
    else (0, reg[remote := callback])
  }

  /** Remove*Callback: always 0; erases the remote's entry, a null or absent remote changes nothing. */
  function RemoveCallback(reg: Registry, remote: RemoteId): (r: (int, Registry))
    ensures r.0 == 0
    ensures r.1.Keys == if remote == NULL_REMOTE then reg.Keys else reg.Keys - {remote}
    ensures forall k :: k in r.1 ==> r.1[k] == reg[k]
  {
    if remote != NULL_REMOTE && remote in reg then (0, reg - {remote}) else (0, reg)
  }

  /** Has*Remote. */
  predicate HasRemote(reg: Registry, remote: RemoteId)
  {
    remote != NULL_REMOTE && remote in reg
  }

  lemma AddPreservesValid(reg: Registry, remote: RemoteId, callback: CallbackId)
    requires RegistryValid(reg)
    ensures RegistryValid(AddCallback(reg, remote, callback).1)
  {
  }

  lemma RemovePreservesValid(reg: Registry, remote: RemoteId)
    requires RegistryValid(reg)
    ensures RegistryValid(RemoveCallback(reg, remote).1)
  {
  }

  /** A successful registration is visible to Has*Remote; a removal makes it invisible. */
  lemma HasAfterAddAndRemove(reg: Registry, remote: RemoteId, callback: CallbackId)
    ensures AddCallback(reg, remote, callback).0 == 0 ==> HasRemote(AddCallback(reg, remote, callback).1, remote)
    ensures !HasRemote(RemoveCallback(reg, remote).1, remote)
  {
  }

  /** Removing a remote that was just registered for the first time restores the registry. */
  lemma RemoveUndoesAdd(reg: Registry, remote: RemoteId, callback: CallbackId)
    requires remote !in reg
    ensures RemoveCallback(AddCallback(reg, remote, callback).1, remote).1 == reg
  {
  }

  // ---------------------------------------------------------------------------------------------
  // Routing and the per-handler message switches.

  datatype Handler = StaHandler | ScanHandler | HotspotHandler | NoHandler

  /** The if/else-if chain of the dispatch loop. */
  function Route(msgCode: int): (h: Handler)
    // The chain has no gap: exactly the nine callback message codes reach a handler.
    ensures h == NoHandler <==> !(WIFI_CBK_MSG_STATE_CHANGE <= msgCode <= WIFI_CBK_MSG_HOTSPOT_STATE_LEAVE)
  {
    if WIFI_CBK_MSG_STATE_CHANGE <= msgCode <= WIFI_CBK_MSG_WPS_STATE_CHANGE then StaHandler
    else if msgCode == WIFI_CBK_MSG_SCAN_STATE_CHANGE then ScanHandler
    else if WIFI_CBK_MSG_HOTSPOT_STATE_CHANGE <= msgCode <= WIFI_CBK_MSG_HOTSPOT_STATE_LEAVE then HotspotHandler
    else NoHandler
  }

  /** The station callback method a message calls, if its code is a station code. */
  function StaCall(msg: WifiEventCallbackMsg): (call: Option<CallbackMethod>)
    ensures call.Some? <==> WIFI_CBK_MSG_STATE_CHANGE <= msg.msgCode <= WIFI_CBK_MSG_WPS_STATE_CHANGE
  {
    if msg.msgCode == WIFI_CBK_MSG_STATE_CHANGE then Some(OnWifiStateChanged(msg.msgData))
    else if msg.msgCode == WIFI_CBK_MSG_CONNECTION_CHANGE then Some(OnWifiConnectionChanged(msg.msgData, msg.linkInfo))
    else if msg.msgCode == WIFI_CBK_MSG_RSSI_CHANGE then Some(OnWifiRssiChanged(msg.msgData))
    else if msg.msgCode == WIFI_CBK_MSG_STREAM_DIRECTION then Some(OnStreamChanged(msg.msgData))
    else if msg.msgCode == WIFI_CBK_MSG_WPS_STATE_CHANGE then Some(OnWifiWpsStateChanged(msg.msgData, msg.pinCode))
    else None
  }

  /** The scan callback method a message calls: only the scan state change is recognised. */
  function ScanCall(msg: WifiEventCallbackMsg): (call: Option<CallbackMethod>)
    ensures call.Some? <==> msg.msgCode == WIFI_CBK_MSG_SCAN_STATE_CHANGE
  {
    if msg.msgCode == WIFI_CBK_MSG_SCAN_STATE_CHANGE then Some(OnWifiScanStateChanged(msg.msgData)) else None
  }

  /** The hotspot callback method a message calls, if its code is a hotspot code. */
  function HotspotCall(msg: WifiEventCallbackMsg): (call: Option<CallbackMethod>)
    ensures call.Some? <==> WIFI_CBK_MSG_HOTSPOT_STATE_CHANGE <= msg.msgCode <= WIFI_CBK_MSG_HOTSPOT_STATE_LEAVE
  {
    if msg.msgCode == WIFI_CBK_MSG_HOTSPOT_STATE_CHANGE then Some(OnHotspotStateChanged(msg.msgData))
    else if msg.msgCode == WIFI_CBK_MSG_HOTSPOT_STATE_JOIN then Some(OnHotspotStaJoin(msg.staInfo))
    else if msg.msgCode == WIFI_CBK_MSG_HOTSPOT_STATE_LEAVE then Some(OnHotspotStaLeave(msg.staInfo))
    else None
  }

  /** The connection states that get a label of their own when published. */
  function LabelledStates(): set<int>
  {
    {StateCode(CONNECT_CONNECTING), StateCode(CONNECT_OBTAINING_IP_FAILED), StateCode(CONNECT_AP_CONNECTED),
     StateCode(CONNECT_CHECK_PORTAL), StateCode(CONNECT_NETWORK_ENABLED), StateCode(CONNECT_NETWORK_DISABLED),
     StateCode(DISCONNECT_DISCONNECTING), StateCode(DISCONNECT_DISCONNECTED), StateCode(CONNECT_PASSWORD_WRONG),
     StateCode(CONNECT_CONNECTING_TIMEOUT)}
  }

  /** The event data published with a connection state change. */
  function ConnectionEventLabel(state: int): (text: string)
    ensures text == "Connecting" <==>
              state == StateCode(CONNECT_CONNECTING) || state == StateCode(CONNECT_CHECK_PORTAL)
    ensures text == "UnknownState" <==> state !in LabelledStates()
    ensures text != "Other"
  {
    if state == StateCode(CONNECT_CONNECTING) then "Connecting"
    else if state == StateCode(CONNECT_OBTAINING_IP_FAILED) then "OBtaingIpFail"
    else if state == StateCode(CONNECT_AP_CONNECTED) then "ApConnecting"
    else if state == StateCode(CONNECT_CHECK_PORTAL) then "Connecting"
    else if state == StateCode(CONNECT_NETWORK_ENABLED) then "NetworkEnabled"
    else if state == StateCode(CONNECT_NETWORK_DISABLED) then "NetworkDisabled"
    else if state == StateCode(DISCONNECT_DISCONNECTING) then "DisconnectDisconnecting"
    else if state == StateCode(DISCONNECT_DISCONNECTED) then "Disconnected"
    else if state == StateCode(CONNECT_PASSWORD_WRONG) then "ConnectPasswordWrong"
    else if state == StateCode(CONNECT_CONNECTING_TIMEOUT) then "ConnectingTimeout"
    else "UnknownState"
  }

  /** The common event the station handler publishes before calling back. */
  function StaEvent(msg: WifiEventCallbackMsg): (event: Option<CommonEvent>)
    // Stream-direction and WPS messages publish nothing. The range form rests on the chosen
    // WIFI_CBK_MSG_* numbering (0x1001..0x1009).
    ensures event.Some? <==> WIFI_CBK_MSG_STATE_CHANGE <= msg.msgCode <= WIFI_CBK_MSG_RSSI_CHANGE
    ensures event.Some? ==> event.value.code == msg.msgData
  {
    if msg.msgCode == WIFI_CBK_MSG_STATE_CHANGE then Some(PowerStateChanged(msg.msgData, "OnWifiPowerStateChanged"))
    else if msg.msgCode == WIFI_CBK_MSG_CONNECTION_CHANGE then
      Some(ConnectionStateChanged(msg.msgData, ConnectionEventLabel(msg.msgData)))
    else if msg.msgCode == WIFI_CBK_MSG_RSSI_CHANGE then Some(RssiValueChanged(msg.msgData, "OnRssiValueChanged"))
    else None
  }

  /** The common event the scan handler publishes. */
  function ScanEvent(msg: WifiEventCallbackMsg): (event: Option<CommonEvent>)
    ensures event.Some? <==> msg.msgCode == WIFI_CBK_MSG_SCAN_STATE_CHANGE
    ensures event.Some? ==> event.value.code == msg.msgData
  {
    if msg.msgCode == WIFI_CBK_MSG_SCAN_STATE_CHANGE then Some(ScanStateChanged(msg.msgData, "OnScanStateChanged"))
    else None
  }

  /** Every message the router hands to a handler is one that handler's callbacks recognise. */
  lemma RoutedCodesAreRecognised(msg: WifiEventCallbackMsg)
    ensures Route(msg.msgCode) == StaHandler <==> StaCall(msg).Some?
    ensures Route(msg.msgCode) == ScanHandler <==> ScanCall(msg).Some?
    ensures Route(msg.msgCode) == HotspotHandler <==> HotspotCall(msg).Some?
  {
  }

  // ---------------------------------------------------------------------------------------------
  // Notifications.

  function PublishEffects(event: Option<CommonEvent>): seq<Effect>
  {
    match event
    case Some(e) => [Publish(e)]
    case None => []
  }

  /** One callback: skipped when null, and silent for a code its switch does not recognise. */
  function NotifyOne(callback: CallbackId, call: Option<CallbackMethod>): seq<Effect>
  {
    if callback != NULL_CALLBACK && call.Some? then [Notify(callback, call.value)] else []
  }

  /** The callbacks of the given remotes, visited in the given order. */
  function NotifyEach(reg: Registry, order: seq<RemoteId>, call: Option<CallbackMethod>): seq<Effect>
    requires forall i :: 0 <= i < |order| ==> order[i] in reg
  {
    if order == [] then []
    else NotifyEach(reg, order[..|order| - 1], call) + NotifyOne(reg[order[|order| - 1]], call)
  }

  /** The order a std::map walk visits the registry: every remote once, ascending. */
  function VisitOrder(reg: Registry): (order: seq<RemoteId>)
    ensures |order| == |reg.Keys|
    ensures forall k :: k in order <==> k in reg
    ensures forall i, j :: 0 <= i < j < |order| ==> order[i] < order[j]
  {
    SortedKeysSpec(reg.Keys);
    SortedKeys(reg.Keys)
  }

  /** Invoke*Callbacks: every registered callback, in ascending remote order. */
  function Notifications(reg: Registry, call: Option<CallbackMethod>): seq<Effect>
  {
    NotifyEach(reg, VisitOrder(reg), call)
  }

  /**
   * What the loop over a registry produces: nothing for an unrecognised code, only calls to
   * non-null callbacks, and, when no callback is null, exactly one call per remote in visit order.
   */
  lemma {:induction false} NotifyEachShape(reg: Registry, order: seq<RemoteId>, call: Option<CallbackMethod>)
    requires forall i :: 0 <= i < |order| ==> order[i] in reg
    ensures call.None? ==> NotifyEach(reg, order, call) == []
    ensures forall e :: e in NotifyEach(reg, order, call) ==>
              e.Notify? && e.target != NULL_CALLBACK && call == Some(e.call)
    ensures call.Some? && (forall i :: 0 <= i < |order| ==> reg[order[i]] != NULL_CALLBACK) ==>
              && |NotifyEach(reg, order, call)| == |order|
              && forall i :: 0 <= i < |order| ==> NotifyEach(reg, order, call)[i] == Notify(reg[order[i]], call.value)
  {
    if order != [] {
      var init := order[..|order| - 1];
      NotifyEachShape(reg, init, call);
    }
  }

  /** For a valid registry and a recognised code: one call per remote, in ascending remote order. */
  lemma NotificationsInKeyOrder(reg: Registry, call: Option<CallbackMethod>)
    requires RegistryValid(reg)
    ensures call.None? ==> Notifications(reg, call) == []
    ensures call.Some? ==>
              var order := VisitOrder(reg);
              && |Notifications(reg, call)| == |order|
              && forall i :: 0 <= i < |order| ==> Notifications(reg, call)[i] == Notify(reg[order[i]], call.value)
  {
    NotifyEachShape(reg, VisitOrder(reg), call);
  }

  /** Visiting one more remote appends that remote's notification. */
  lemma NotifyEachExtend(reg: Registry, order: seq<RemoteId>, i: nat, call: Option<CallbackMethod>)
    requires i < |order| && forall k :: 0 <= k < |order| ==> order[k] in reg
    ensures NotifyEach(reg, order[..i + 1], call) == NotifyEach(reg, order[..i], call) + NotifyOne(reg[order[i]], call)
  {
    assert order[..i + 1][..i] == order[..i];
  }

  /** The loop shared by the three Invoke*Callbacks: walks a snapshot of the registry in key order. */
  method InvokeCallbacks(callbacks: Registry, call: Option<CallbackMethod>) returns (effects: seq<Effect>)
    ensures effects == Notifications(callbacks, call)
  {
    effects := InvokeInOrder(callbacks, VisitOrder(callbacks), call);
  }

  /** The loop body of Invoke*Callbacks: each visited remote's callback, null ones skipped. */
  method InvokeInOrder(callbacks: Registry, order: seq<RemoteId>, call: Option<CallbackMethod>)
    returns (effects: seq<Effect>)
    requires forall k :: 0 <= k < |order| ==> order[k] in callbacks
    ensures effects == NotifyEach(callbacks, order, call)
  {
    effects := [];
    var i := 0;
    while i < |order|
      invariant 0 <= i <= |order|
      invariant effects == NotifyEach(callbacks, order[..i], call)
    {
      var callback := callbacks[order[i]];
      NotifyEachExtend(callbacks, order, i, call);
      if callback != NULL_CALLBACK && call.Some? {
        effects := effects + [Notify(callback, call.value)];
      }
      i := i + 1;
    }
    assert order[..i] == order;
  }

  /** What the handler chosen by Route does with a message: publish, single callback, registry. */
  function HandlerEffects(event: Option<CommonEvent>, single: CallbackId, reg: Registry,
                          call: Option<CallbackMethod>): seq<Effect>
  {
    PublishEffects(event) + NotifyOne(single, call) + Notifications(reg, call)
  }

  // ---------------------------------------------------------------------------------------------
  // The dispatcher object.

  class WifiInternalEventDispatcher {
    var staCallbacks: Registry
    var scanCallbacks: Registry
    var hotspotCallbacks: Registry
    var staSingleCallback: CallbackId
    var scanSingleCallback: CallbackId
    var hotspotSingleCallback: CallbackId
    var eventQue: seq<WifiEventCallbackMsg>

    ghost predicate Valid()
      reads this
    {
      RegistryValid(staCallbacks) && RegistryValid(scanCallbacks) && RegistryValid(hotspotCallbacks)
    }

    constructor ()
      ensures Valid()
      ensures staCallbacks == map[] && scanCallbacks == map[] && hotspotCallbacks == map[]
      ensures staSingleCallback == NULL_CALLBACK && scanSingleCallback == NULL_CALLBACK
      ensures hotspotSingleCallback == NULL_CALLBACK
      ensures eventQue == []
    {
      staCallbacks, scanCallbacks, hotspotCallbacks := map[], map[], map[];
      staSingleCallback, scanSingleCallback, hotspotSingleCallback := NULL_CALLBACK, NULL_CALLBACK, NULL_CALLBACK;
      eventQue := [];
    }

    method AddStaCallback(remote: RemoteId, callback: CallbackId) returns (r: int)
      requires Valid()
      modifies this`staCallbacks
      ensures Valid()
      ensures (r, staCallbacks) == AddCallback(old(staCallbacks), remote, callback)
    {
      AddPreservesValid(staCallbacks, remote, callback);
      if remote == NULL_REMOTE || callback == NULL_CALLBACK {
        return 1;
      }
      staCallbacks := staCallbacks[remote := callback];
      return 0;
    }

    method RemoveStaCallback(remote: RemoteId) returns (r: int)
      requires Valid()
      modifies this`staCallbacks
      ensures Valid()
      ensures (r, staCallbacks) == RemoveCallback(old(staCallbacks), remote)
    {
      RemovePreservesValid(staCallbacks, remote);
      if remote != NULL_REMOTE {
        if remote in staCallbacks {
          staCallbacks := staCallbacks - {remote};
        }
      }
      return 0;
    }

    method SetSingleStaCallback(callback: CallbackId) returns (r: int)
      modifies this`staSingleCallback
      ensures r == 0
      ensures GetSingleStaCallback() == callback
    {
      staSingleCallback := callback;
      return 0;
    }

    function GetSingleStaCallback(): CallbackId
      reads this
    {
      staSingleCallback
    }

    predicate HasStaRemote(remote: RemoteId)
      reads this
    {
      HasRemote(staCallbacks, remote)
    }

    method AddScanCallback(remote: RemoteId, callback: CallbackId) returns (r: int)
      requires Valid()
      modifies this`scanCallbacks
      ensures Valid()
      ensures (r, scanCallbacks) == AddCallback(old(scanCallbacks), remote, callback)
    {
      AddPreservesValid(scanCallbacks, remote, callback);
      if remote == NULL_REMOTE || callback == NULL_CALLBACK {
        return 1;
      }
      scanCallbacks := scanCallbacks[remote := callback];
      return 0;
    }

    method RemoveScanCallback(remote: RemoteId) returns (r: int)
      requires Valid()
      modifies this`scanCallbacks
      ensures Valid()
      ensures (r, scanCallbacks) == RemoveCallback(old(scanCallbacks), remote)
    {
      RemovePreservesValid(scanCallbacks, remote);
      if remote != NULL_REMOTE {
        if remote in scanCallbacks {
          scanCallbacks := scanCallbacks - {remote};
        }
      }
      return 0;
    }

    method SetSingleScanCallback(callback: CallbackId) returns (r: int)
      modifies this`scanSingleCallback
      ensures r == 0
      ensures GetSingleScanCallback() == callback
    {
      scanSingleCallback := callback;
      return 0;
    }

    function GetSingleScanCallback(): CallbackId
      reads this
    {
      scanSingleCallback
    }

    predicate HasScanRemote(remote: RemoteId)
      reads this
    {
      HasRemote(scanCallbacks, remote)
    }

    method AddHotspotCallback(remote: RemoteId, callback: CallbackId) returns (r: int)
      requires Valid()
      modifies this`hotspotCallbacks
      ensures Valid()
      ensures (r, hotspotCallbacks) == AddCallback(old(hotspotCallbacks), remote, callback)
    {
      AddPreservesValid(hotspotCallbacks, remote, callback);
      if remote == NULL_REMOTE || callback == NULL_CALLBACK {
        return 1;
      }
      hotspotCallbacks := hotspotCallbacks[remote := callback];
      return 0;
    }

    method RemoveHotspotCallback(remote: RemoteId) returns (r: int)
      requires Valid()
      modifies this`hotspotCallbacks
      ensures Valid()
      ensures (r, hotspotCallbacks) == RemoveCallback(old(hotspotCallbacks), remote)
    {
      RemovePreservesValid(hotspotCallbacks, remote);
      if remote != NULL_REMOTE {
        if remote in hotspotCallbacks {
          hotspotCallbacks := hotspotCallbacks - {remote};
        }
      }
      return 0;
    }

    method SetSingleHotspotCallback(callback: CallbackId) returns (r: int)
      modifies this`hotspotSingleCallback
      ensures r == 0
      ensures GetSingleHotspotCallback() == callback
    {
      hotspotSingleCallback := callback;
      return 0;
    }

    function GetSingleHotspotCallback(): CallbackId
      reads this
    {
      hotspotSingleCallback
    }

    predicate HasHotspotRemote(remote: RemoteId)
      reads this
    {
      HasRemote(hotspotCallbacks, remote)
    }

    /** Queues a message at the back. */
    method AddBroadCastMsg(msg: WifiEventCallbackMsg) returns (r: int)
      modifies this`eventQue
      ensures r == 0
      ensures eventQue == old(eventQue) + [msg]
    {
      eventQue := eventQue + [msg];
      return 0;
    }

    /** The effects of dispatching msg against the current registries and single slots. */
    function Dispatch(msg: WifiEventCallbackMsg): seq<Effect>
      reads this
    {
      match Route(msg.msgCode)
      case StaHandler => HandlerEffects(StaEvent(msg), staSingleCallback, staCallbacks, StaCall(msg))
      case ScanHandler => HandlerEffects(ScanEvent(msg), scanSingleCallback, scanCallbacks, ScanCall(msg))
      case HotspotHandler => HandlerEffects(None, hotspotSingleCallback, hotspotCallbacks, HotspotCall(msg))
      case NoHandler => []
    }

    method InvokeDeviceCallbacks(msg: WifiEventCallbackMsg) returns (effects: seq<Effect>)
      ensures effects == Notifications(staCallbacks, StaCall(msg))
    {
      effects := InvokeCallbacks(staCallbacks, StaCall(msg));
    }

    method InvokeScanCallbacks(msg: WifiEventCallbackMsg) returns (effects: seq<Effect>)
      ensures effects == Notifications(scanCallbacks, ScanCall(msg))
    {
      effects := InvokeCallbacks(scanCallbacks, ScanCall(msg));
    }

    method InvokeHotspotCallbacks(msg: WifiEventCallbackMsg) returns (effects: seq<Effect>)
      ensures effects == Notifications(hotspotCallbacks, HotspotCall(msg))
    {
      effects := InvokeCallbacks(hotspotCallbacks, HotspotCall(msg));
    }

    method DealStaCallbackMsg(msg: WifiEventCallbackMsg) returns (effects: seq<Effect>)
      ensures effects == HandlerEffects(StaEvent(msg), staSingleCallback, staCallbacks, StaCall(msg))
    {
      var registered := InvokeDeviceCallbacks(msg);
      effects := PublishEffects(StaEvent(msg)) + NotifyOne(GetSingleStaCallback(), StaCall(msg)) + registered;
    }

    method DealScanCallbackMsg(msg: WifiEventCallbackMsg) returns (effects: seq<Effect>)
      ensures effects == HandlerEffects(ScanEvent(msg), scanSingleCallback, scanCallbacks, ScanCall(msg))
    {
      var registered := InvokeScanCallbacks(msg);
      effects := PublishEffects(ScanEvent(msg)) + NotifyOne(GetSingleScanCallback(), ScanCall(msg)) + registered;
    }

    method DealHotspotCallbackMsg(msg: WifiEventCallbackMsg) returns (effects: seq<Effect>)
      ensures effects == HandlerEffects(None, hotspotSingleCallback, hotspotCallbacks, HotspotCall(msg))
    {
      var registered := InvokeHotspotCallbacks(msg);
      effects := PublishEffects(None) + NotifyOne(GetSingleHotspotCallback(), HotspotCall(msg)) + registered;
    }

    /**
     * One turn of the broadcast loop: take the message at the front of the queue and route it.
     * With an empty queue the thread would wait; here nothing happens.
     */
    method RunOnce() returns (effects: seq<Effect>)
      modifies this`eventQue
      ensures old(eventQue) == [] ==> effects == [] && eventQue == []
      ensures old(eventQue) != [] ==> eventQue == old(eventQue)[1..] && effects == Dispatch(old(eventQue)[0])
    {
      if eventQue == [] {
        return [];
      }
      var msg := eventQue[0];
      eventQue := eventQue[1..];
      if WIFI_CBK_MSG_STATE_CHANGE <= msg.msgCode <= WIFI_CBK_MSG_WPS_STATE_CHANGE {
        effects := DealStaCallbackMsg(msg);
      } else if msg.msgCode == WIFI_CBK_MSG_SCAN_STATE_CHANGE {
        effects := DealScanCallbackMsg(msg);
      } else if WIFI_CBK_MSG_HOTSPOT_STATE_CHANGE <= msg.msgCode <= WIFI_CBK_MSG_HOTSPOT_STATE_LEAVE {
        effects := DealHotspotCallbackMsg(msg);
      } else {
        effects := [];
      }
    }
  }

  /**
   * The order of a handler's effects: its published event first (if any), then the call of the
   * single callback (if set), then one call per registered remote in ascending remote order.
   */
  predicate InHandlerOrder(effects: seq<Effect>, event: Option<CommonEvent>, single: CallbackId, reg: Registry,
                           call: CallbackMethod)
  {
    var p := if event.Some? then 1 else 0;
    var s := if single != NULL_CALLBACK then 1 else 0;
    var order := VisitOrder(reg);
    && |effects| == p + s + |order|
    && (event.Some? ==> effects[0] == Publish(event.value))
    && (single != NULL_CALLBACK ==> effects[p] == Notify(single, call))
    && forall i :: 0 <= i < |order| ==> effects[p + s + i] == Notify(reg[order[i]], call)
  }

  lemma HandlerEffectsOrder(event: Option<CommonEvent>, single: CallbackId, reg: Registry, call: CallbackMethod)
    requires RegistryValid(reg)
    ensures InHandlerOrder(HandlerEffects(event, single, reg, Some(call)), event, single, reg, call)
    ensures |HandlerEffects(event, single, reg, Some(call))| ==
              (if event.Some? then 1 else 0) + (if single != NULL_CALLBACK then 1 else 0) + |reg.Keys|
  {
    NotificationsInKeyOrder(reg, Some(call));
    var order := VisitOrder(reg);
    var notes := Notifications(reg, Some(call));
    var head := PublishEffects(event) + NotifyOne(single, Some(call));
    var effects := HandlerEffects(event, single, reg, Some(call));
    var p := if event.Some? then 1 else 0;
    var s := if single != NULL_CALLBACK then 1 else 0;
    assert effects == head + notes;
    assert |head| == p + s;
    assert event.Some? ==> head[0] == Publish(event.value);
    assert single != NULL_CALLBACK ==> head[p] == Notify(single, call);
    forall i | 0 <= i < |order| ensures effects[p + s + i] == Notify(reg[order[i]], call) {
      assert effects[p + s + i] == notes[i];
    }
  }

  /**
   * Dispatching a message: an unrouted code does nothing; otherwise the chosen handler's effects are
   * in handler order. A scan message always publishes, a hotspot message never does.
   */
  lemma {:induction false} DispatchShape(d: WifiInternalEventDispatcher, msg: WifiEventCallbackMsg)
    requires d.Valid()
    ensures Route(msg.msgCode) == NoHandler ==> d.Dispatch(msg) == []
    ensures Route(msg.msgCode) == StaHandler ==>
              InHandlerOrder(d.Dispatch(msg), StaEvent(msg), d.staSingleCallback, d.staCallbacks, StaCall(msg).value)
    ensures Route(msg.msgCode) == ScanHandler ==>
              && ScanEvent(msg).Some?
              && InHandlerOrder(d.Dispatch(msg), ScanEvent(msg), d.scanSingleCallback, d.scanCallbacks, ScanCall(msg).value)
    ensures Route(msg.msgCode) == HotspotHandler ==>
              && InHandlerOrder(d.Dispatch(msg), None, d.hotspotSingleCallback, d.hotspotCallbacks, HotspotCall(msg).value)
              && forall e :: e in d.Dispatch(msg) ==> e.Notify? && Some(e.call) == HotspotCall(msg)
  {
    RoutedCodesAreRecognised(msg);
    match Route(msg.msgCode)
    case StaHandler =>
      HandlerEffectsOrder(StaEvent(msg), d.staSingleCallback, d.staCallbacks, StaCall(msg).value);
    case ScanHandler =>
      HandlerEffectsOrder(ScanEvent(msg), d.scanSingleCallback, d.scanCallbacks, ScanCall(msg).value);
    case HotspotHandler =>
      HandlerEffectsOrder(None, d.hotspotSingleCallback, d.hotspotCallbacks, HotspotCall(msg).value);
      NotifyEachShape(d.hotspotCallbacks, VisitOrder(d.hotspotCallbacks), HotspotCall(msg));
    case NoHandler =>
  }

  /** Two messages queued one after the other are dispatched in the order they were queued. */
  method DispatchInArrivalOrder(d: WifiInternalEventDispatcher, first: WifiEventCallbackMsg, second: WifiEventCallbackMsg)
    returns (effects1: seq<Effect>, effects2: seq<Effect>)
    requires d.eventQue == []
    modifies d`eventQue
    ensures effects1 == d.Dispatch(first) && effects2 == d.Dispatch(second)
    ensures d.eventQue == []
  {
    var _ := d.AddBroadCastMsg(first);
    var _ := d.AddBroadCastMsg(second);
    effects1 := d.RunOnce();
    effects2 := d.RunOnce();
  }
}
