# Wi-Fi framework utilities and internal event dispatcher: a Dafny model

This project models two sequential parts of the Wi-Fi service framework.

- **The global utility functions** (module `WifiGlobalFunc`, file `wifi_global_func.dfy`):
  - validation of a hotspot configuration against the center's configuration, band list and channel table;
  - the band/channel self-correction applied before a hotspot starts;
  - frequency-to-channel conversion following IEEE 802.11 channel numbering. 2.4 GHz channels 1–13 are on a 5 MHz grid from 2412 MHz, channel 14 is at 2484 MHz, and 5 GHz channels start at 34 from 5170 MHz. The 2.4 and 5 GHz band classifiers are modelled too;
  - the MAC address syntax check;
  - delimiter-based string splitting;
  - the "scan any time" policy lookup;
  - the mapping from internal connection results to public connection states;
  - random key generation, with the random source given as a sequence of draws.
- **The internal event dispatcher** (module `InternalEventDispatcher`, file `wifi_internal_event_dispatcher.dfy`):
  - the class `WifiInternalEventDispatcher`, which holds the station, scan and hotspot callback registries (remote object to callback), one single-callback slot per kind, and the FIFO queue of event messages;
  - the step of the broadcast loop that takes the front message and routes it by message code;
  - the ordered list of effects a message produces. An effect is either a common event published, with its event-data label, or a callback method called on a given callback.

Two small modules support them. `WifiTypes` holds `Option` and the public `ConnectionState` enumeration. `KeyOrder` gives the ascending key order in which a `std::map` is walked.

Modelling choices:

- Remote objects and callbacks are opaque integer ids, and 0 stands for the null pointer.
- A function's reference parameter is modelled as a returned value. This covers the configuration that `CheckBandChannel` corrects, the vector that `SplitString` and `TransformFrequencyIntoChannel` append to, and the channel table that `CfgCheckChannel` may extend through `operator[]`.

## Model

| member | source | states |
|---|---|---|
| WifiGlobalFunc.CfgCheckSsid | services/wifi_standard/wifi_framework/common/utils/wifi_global_func.cpp:34-40 | success exactly when the SSID length lies in [MIN_SSID_LEN, MAX_SSID_LEN] |
| WifiGlobalFunc.CfgCheckPsk | services/wifi_standard/wifi_framework/common/utils/wifi_global_func.cpp:42-48 | success exactly when the pre-shared key length lies in [MIN_PSK_LEN, MAX_PSK_LEN] |
| WifiGlobalFunc.CfgCheckBand | services/wifi_standard/wifi_framework/common/utils/wifi_global_func.cpp:50-58 | success exactly when the configured band occurs in the center's band list |
| WifiGlobalFunc.CfgCheckChannel | services/wifi_standard/wifi_framework/common/utils/wifi_global_func.cpp:60-65 | success exactly when the channel is in the table's list for the band (a missing band counts as an empty list); the returned table is the input table, plus an empty entry for the band only when the band was missing |
| WifiGlobalFunc.IsValidHotspotConfig | services/wifi_standard/wifi_framework/common/utils/wifi_global_func.cpp:67-99 | a bad SSID fails first and leaves the table alone; success exactly when the SSID is valid, the key rule holds (NONE only with an empty key, WPA/WPA2-PSK only with a key of valid length, any other type rejected), a band differing from the center's is in the band list, and a channel differing from the center's is in the table's list for the band; the table changes exactly by the lookup's empty entry for the band, and exactly when the channel check is performed |
| WifiGlobalFunc.CheckBandChannel | services/wifi_standard/wifi_framework/common/utils/wifi_global_func.cpp:265-282 | a channel listed for its band leaves the configuration unchanged; otherwise band becomes 2.4 GHz and channel becomes AP_CHANNEL_DEFAULT; afterwards the pair is allowed or is the default; SSID, key and security type are kept |
| WifiGlobalFunc.RandomChar | services/wifi_standard/wifi_framework/common/utils/wifi_global_func.cpp:111-122 | the character chosen for a draw is a lower-case letter, an upper-case letter or a digit |
| WifiGlobalFunc.CString | services/wifi_standard/wifi_framework/common/utils/wifi_global_func.cpp:124 | the string read from a char buffer is the longest NUL-free prefix |
| WifiGlobalFunc.GetRandomStr | services/wifi_standard/wifi_framework/common/utils/wifi_global_func.cpp:101-126 | the result has length min(max(len, 0), MAX_PSK_LEN); its i-th character is the character chosen for the i-th draw; every character is alphanumeric |
| WifiGlobalFunc.ScanRules | services/wifi_standard/wifi_framework/common/utils/wifi_global_func.cpp:132-136 | the inner walk finds a rule exactly when some rule of the scene is ANYTIME_SCAN |
| WifiGlobalFunc.ScanScenes | services/wifi_standard/wifi_framework/common/utils/wifi_global_func.cpp:131-138 | walking the given scenes in key order allows exactly when none of them has an ANYTIME_SCAN rule |
| WifiGlobalFunc.IsAllowScanAnyTime | services/wifi_standard/wifi_framework/common/utils/wifi_global_func.cpp:128-139 | true when SCAN_SCENE_ALL is absent; otherwise false exactly when SCAN_SCENE_ALL or a larger key has an ANYTIME_SCAN rule |
| WifiGlobalFunc.IsAllowScanAnyTimeIntended | services/wifi_standard/wifi_framework/common/utils/wifi_global_func.cpp:128-139 | false exactly when SCAN_SCENE_ALL is present and has an ANYTIME_SCAN rule |
| WifiGlobalFunc.ScanPolicyOverreach | services/wifi_standard/wifi_framework/common/utils/wifi_global_func.cpp:130-131 | a map whose SCAN_SCENE_ALL entry has no ANYTIME_SCAN rule but a later scene does is refused by the code as written and allowed by the intended lookup |
| WifiGlobalFunc.ScanPolicyAgreesWithoutLaterScenes | services/wifi_standard/wifi_framework/common/utils/wifi_global_func.cpp:128-139 | with no ANYTIME_SCAN rule under a key above SCAN_SCENE_ALL, the two lookups agree |
| WifiGlobalFunc.ScanPolicyDifference | services/wifi_standard/wifi_framework/common/utils/wifi_global_func.cpp:128-139 | the two lookups differ exactly when SCAN_SCENE_ALL is present without an ANYTIME_SCAN rule and some later scene has one; the code as written then refuses, so it never allows what the intended lookup refuses |
| WifiGlobalFunc.ConvertConnStateInternal | services/wifi_standard/wifi_framework/common/utils/wifi_global_func.cpp:141-175 | each of the 14 listed results maps to the same-named connection state, and every other value maps to UNKNOWN (both directions) |
| WifiGlobalFunc.IsValidHexCharAndConvert | services/wifi_standard/wifi_framework/common/utils/wifi_global_func.cpp:177-189 | the result is in [-1, 15]; it is non-negative exactly for 0-9, a-f and A-F, and then it is the digit's value |
| WifiGlobalFunc.CheckMacIsValid | services/wifi_standard/wifi_framework/common/utils/wifi_global_func.cpp:191-212 | returns 0 or -1; 0 exactly when the length is MAC_STRING_SIZE, every index i with i % 3 == 2 is ':' and every other index is a hex digit |
| WifiGlobalFunc.Find | services/wifi_standard/wifi_framework/common/utils/wifi_global_func.cpp:223 | the position found is the first occurrence of the delimiter at or after the start; none means there is no occurrence there |
| WifiGlobalFunc.Pieces | services/wifi_standard/wifi_framework/common/utils/wifi_global_func.cpp:220-233 | definition: from a start position, the text between successive delimiter occurrences, empty pieces dropped, then the non-empty tail; its properties are PiecesWellFormed and SplitExample |
| WifiGlobalFunc.Split | services/wifi_standard/wifi_framework/common/utils/wifi_global_func.cpp:214-235 | definition: the whole input as one piece for an empty delimiter, the pieces from position 0 otherwise; SplitString is proved to append exactly this |
| WifiGlobalFunc.SplitString | services/wifi_standard/wifi_framework/common/utils/wifi_global_func.cpp:214-235 | the output is the input vector followed by the split pieces; with an empty delimiter exactly the whole input (even an empty one) is appended; every appended piece is non-empty and does not contain the delimiter |
| WifiGlobalFunc.PiecesWellFormed | services/wifi_standard/wifi_framework/common/utils/wifi_global_func.cpp:223-233 | every piece produced from a start position is non-empty and free of the delimiter |
| WifiGlobalFunc.SplitExample | services/wifi_standard/wifi_framework/common/utils/wifi_global_func.cpp:223-233 | splitting "a,,b," on "," drops the empty pieces and yields ["a", "b"] |
| WifiGlobalFunc.FrequencyToChannel | services/wifi_standard/wifi_framework/common/utils/wifi_global_func.cpp:241-250 | a channel exists exactly for [2412, 2472], 2484 and [5170, 5825]; it is 1..14 for a 2.4 GHz frequency and 34..165 for a 5 GHz one |
| WifiGlobalFunc.FrequencyChannelRoundTrip | services/wifi_standard/wifi_framework/common/utils/wifi_global_func.cpp:241-246 | a known frequency on the 5 MHz grid is the centre frequency of its channel |
| WifiGlobalFunc.ChannelFrequencyRoundTrip | services/wifi_standard/wifi_framework/common/utils/wifi_global_func.cpp:241-246 | every channel with a centre frequency converts back from that frequency |
| WifiGlobalFunc.IsValid24GHz | services/wifi_standard/wifi_framework/common/utils/wifi_global_func.cpp:255-258 | the open interval (2400, 2500); every 2.4 GHz channel frequency (2412–2472 and 2484) is in it, and no frequency in it is 5 GHz |
| WifiGlobalFunc.IsValid5GHz | services/wifi_standard/wifi_framework/common/utils/wifi_global_func.cpp:260-263 | the open interval (4900, 5900); every 5 GHz channel frequency (5170–5825) is in it, and no 2.4 GHz channel frequency is |
| WifiGlobalFunc.BandBoundaries | services/wifi_standard/wifi_framework/common/utils/wifi_global_func.cpp:255-263 | both band intervals are open: 2400, 2500, 4900 and 5900 are excluded and their neighbours inside are included |
| WifiGlobalFunc.Channels | services/wifi_standard/wifi_framework/common/utils/wifi_global_func.cpp:240-252 | definition: the channel of each known frequency, unknown ones skipped, in input order; its properties are ChannelsAppend, ChannelsSingleton and ChannelsBounded, and TransformFrequencyIntoChannel is proved to append exactly this |
| WifiGlobalFunc.ChannelsAppend | services/wifi_standard/wifi_framework/common/utils/wifi_global_func.cpp:240-252 | converting a concatenation is converting each part, in order |
| WifiGlobalFunc.ChannelsSingleton | services/wifi_standard/wifi_framework/common/utils/wifi_global_func.cpp:240-252 | one frequency yields its channel, or nothing when it is in no known range |
| WifiGlobalFunc.ChannelsBounded | services/wifi_standard/wifi_framework/common/utils/wifi_global_func.cpp:240-252 | at most one channel per input frequency, each a legal 2.4 or 5 GHz channel |
| WifiGlobalFunc.TransformFrequencyIntoChannel | services/wifi_standard/wifi_framework/common/utils/wifi_global_func.cpp:237-253 | the output is the existing vector followed by the channels of the known frequencies, in input order; it grows by at most the input length |
| InternalEventDispatcher.AddCallback | services/wifi_standard/wifi_framework/wifi_manage/wifi_internal_event_dispatcher.cpp:51-62 | returns 1 and leaves the registry unchanged exactly when the remote or the callback is null; otherwise returns 0, the remote maps to the callback (insert or overwrite) and every other entry is kept |
| InternalEventDispatcher.RemoveCallback | services/wifi_standard/wifi_framework/wifi_manage/wifi_internal_event_dispatcher.cpp:64-75 | always returns 0; only the given remote's entry is erased, and a null or absent remote changes nothing |
| InternalEventDispatcher.HasRemote | services/wifi_standard/wifi_framework/wifi_manage/wifi_internal_event_dispatcher.cpp:88-97 | definition: the remote is non-null and a key of the registry; HasAfterAddAndRemove relates it to registration and removal |
| InternalEventDispatcher.AddPreservesValid | services/wifi_standard/wifi_framework/wifi_manage/wifi_internal_event_dispatcher.cpp:55-60 | registration keeps null remotes and null callbacks out of the registry |
| InternalEventDispatcher.RemovePreservesValid | services/wifi_standard/wifi_framework/wifi_manage/wifi_internal_event_dispatcher.cpp:66-72 | removal keeps the registry free of null remotes and null callbacks |
| InternalEventDispatcher.HasAfterAddAndRemove | services/wifi_standard/wifi_framework/wifi_manage/wifi_internal_event_dispatcher.cpp:88-97 | after a successful registration the remote is reported present; after its removal it is reported absent |
| InternalEventDispatcher.RemoveUndoesAdd | services/wifi_standard/wifi_framework/wifi_manage/wifi_internal_event_dispatcher.cpp:51-75 | removing a remote that was registered for the first time restores the registry |
| InternalEventDispatcher.Route | services/wifi_standard/wifi_framework/wifi_manage/wifi_internal_event_dispatcher.cpp:472-481 | station codes, then the scan code, then hotspot codes, in the order of the chain; exactly the nine callback codes reach a handler, anything else is dropped; the bands are contiguous because of the WIFI_CBK_MSG_* numbering this model chooses (0x1001..0x1009) |
| InternalEventDispatcher.StaCall | services/wifi_standard/wifi_framework/wifi_manage/wifi_internal_event_dispatcher.cpp:241-260 | the station callback method a message calls, present exactly for the five station codes (state, connection with its linked info, RSSI, stream direction, WPS with its PIN) |
| InternalEventDispatcher.ScanCall | services/wifi_standard/wifi_framework/wifi_manage/wifi_internal_event_dispatcher.cpp:280-286 | the scan callback method, present exactly for the scan state change |
| InternalEventDispatcher.HotspotCall | services/wifi_standard/wifi_framework/wifi_manage/wifi_internal_event_dispatcher.cpp:375-388 | the hotspot callback method, present exactly for the three hotspot codes (state change, station join, station leave, the latter two with the station info) |
| InternalEventDispatcher.StaEvent | services/wifi_standard/wifi_framework/wifi_manage/wifi_internal_event_dispatcher.cpp:221-237 | the common event a station message publishes, present exactly for the state, connection and RSSI codes and carrying the message data; stream-direction and WPS messages publish nothing; the range form of the codes follows from the WIFI_CBK_MSG_* numbering this model chooses |
| InternalEventDispatcher.ScanEvent | services/wifi_standard/wifi_framework/wifi_manage/wifi_internal_event_dispatcher.cpp:269-276 | the scan message publishes exactly for the scan state change, carrying the message data |
| InternalEventDispatcher.ConnectionEventLabel | services/wifi_standard/wifi_framework/wifi_manage/wifi_internal_event_dispatcher.cpp:394-432 | "Connecting" exactly for CONNECT_CONNECTING and CONNECT_CHECK_PORTAL; "UnknownState" exactly for the states not listed; the initial "Other" is never published |
| InternalEventDispatcher.RoutedCodesAreRecognised | services/wifi_standard/wifi_framework/wifi_manage/wifi_internal_event_dispatcher.cpp:472-481 | a code goes to the station, scan or hotspot handler exactly when that handler's callback switch recognises it; the range form of each handler's codes follows from the WIFI_CBK_MSG_* numbering this model chooses |
| InternalEventDispatcher.VisitOrder | services/wifi_standard/wifi_framework/wifi_manage/wifi_internal_event_dispatcher.cpp:296 | the registry walk visits every remote exactly once, in strictly ascending order |
| InternalEventDispatcher.NotifyEachShape | services/wifi_standard/wifi_framework/wifi_manage/wifi_internal_event_dispatcher.cpp:312-342 | an unrecognised code notifies nobody; every notification goes to a non-null callback with the recognised method; with no null callbacks there is exactly one notification per remote, in visit order |
| InternalEventDispatcher.NotificationsInKeyOrder | services/wifi_standard/wifi_framework/wifi_manage/wifi_internal_event_dispatcher.cpp:292-368 | for a valid registry and a recognised code, the i-th notification goes to the callback of the i-th remote in ascending order, and there is one per remote |
| InternalEventDispatcher.InvokeCallbacks | services/wifi_standard/wifi_framework/wifi_manage/wifi_internal_event_dispatcher.cpp:292-310 | the loop over a snapshot of a registry produces exactly the notifications of the registry walk |
| InternalEventDispatcher.InvokeInOrder | services/wifi_standard/wifi_framework/wifi_manage/wifi_internal_event_dispatcher.cpp:296-309 | the loop over the remotes in a given order produces exactly NotifyEach: a null callback or an unrecognised code adds nothing, otherwise one call per remote, in order |
| InternalEventDispatcher.HandlerEffectsOrder | services/wifi_standard/wifi_framework/wifi_manage/wifi_internal_event_dispatcher.cpp:218-264 | a handler produces its published event first (if any), then the single callback's call (if set), then one call per registered remote in ascending remote order, and nothing else |
| InternalEventDispatcher.DispatchShape | services/wifi_standard/wifi_framework/wifi_manage/wifi_internal_event_dispatcher.cpp:218-392 | an unrouted code has no effect; otherwise the effects are in handler order (event, single callback, registry); a scan message always publishes, a hotspot message never does and only calls with the recognised hotspot method |
| InternalEventDispatcher.WifiInternalEventDispatcher.constructor | services/wifi_standard/wifi_framework/wifi_manage/wifi_internal_event_dispatcher.cpp:32-33 | empty registries, null single slots, empty queue |
| InternalEventDispatcher.WifiInternalEventDispatcher.AddStaCallback | services/wifi_standard/wifi_framework/wifi_manage/wifi_internal_event_dispatcher.cpp:51-62 | the station registry and the result are those of AddCallback; nothing else changes |
| InternalEventDispatcher.WifiInternalEventDispatcher.RemoveStaCallback | services/wifi_standard/wifi_framework/wifi_manage/wifi_internal_event_dispatcher.cpp:64-75 | the station registry and the result are those of RemoveCallback; nothing else changes |
| InternalEventDispatcher.WifiInternalEventDispatcher.SetSingleStaCallback | services/wifi_standard/wifi_framework/wifi_manage/wifi_internal_event_dispatcher.cpp:77-86 | returns 0, and the station single-callback getter then returns the value set (null included) |
| InternalEventDispatcher.WifiInternalEventDispatcher.GetSingleStaCallback | services/wifi_standard/wifi_framework/wifi_manage/wifi_internal_event_dispatcher.cpp:83-86 | the station single slot; SetSingleStaCallback is proved to make it return the value set |
| InternalEventDispatcher.WifiInternalEventDispatcher.HasStaRemote | services/wifi_standard/wifi_framework/wifi_manage/wifi_internal_event_dispatcher.cpp:88-97 | HasRemote on the station registry |
| InternalEventDispatcher.WifiInternalEventDispatcher.AddScanCallback | services/wifi_standard/wifi_framework/wifi_manage/wifi_internal_event_dispatcher.cpp:99-110 | the scan registry and the result are those of AddCallback; nothing else changes |
| InternalEventDispatcher.WifiInternalEventDispatcher.RemoveScanCallback | services/wifi_standard/wifi_framework/wifi_manage/wifi_internal_event_dispatcher.cpp:112-123 | the scan registry and the result are those of RemoveCallback; nothing else changes |
| InternalEventDispatcher.WifiInternalEventDispatcher.SetSingleScanCallback | services/wifi_standard/wifi_framework/wifi_manage/wifi_internal_event_dispatcher.cpp:125-134 | returns 0, and the scan single-callback getter then returns the value set |
| InternalEventDispatcher.WifiInternalEventDispatcher.GetSingleScanCallback | services/wifi_standard/wifi_framework/wifi_manage/wifi_internal_event_dispatcher.cpp:131-134 | the scan single slot; SetSingleScanCallback is proved to make it return the value set |
| InternalEventDispatcher.WifiInternalEventDispatcher.HasScanRemote | services/wifi_standard/wifi_framework/wifi_manage/wifi_internal_event_dispatcher.cpp:136-145 | HasRemote on the scan registry |
| InternalEventDispatcher.WifiInternalEventDispatcher.AddHotspotCallback | services/wifi_standard/wifi_framework/wifi_manage/wifi_internal_event_dispatcher.cpp:147-158 | the hotspot registry and the result are those of AddCallback; nothing else changes |
| InternalEventDispatcher.WifiInternalEventDispatcher.RemoveHotspotCallback | services/wifi_standard/wifi_framework/wifi_manage/wifi_internal_event_dispatcher.cpp:160-171 | the hotspot registry and the result are those of RemoveCallback; nothing else changes |
| InternalEventDispatcher.WifiInternalEventDispatcher.SetSingleHotspotCallback | services/wifi_standard/wifi_framework/wifi_manage/wifi_internal_event_dispatcher.cpp:173-182 | returns 0, and the hotspot single-callback getter then returns the value set |
| InternalEventDispatcher.WifiInternalEventDispatcher.GetSingleHotspotCallback | services/wifi_standard/wifi_framework/wifi_manage/wifi_internal_event_dispatcher.cpp:179-182 | the hotspot single slot; SetSingleHotspotCallback is proved to make it return the value set |
| InternalEventDispatcher.WifiInternalEventDispatcher.HasHotspotRemote | services/wifi_standard/wifi_framework/wifi_manage/wifi_internal_event_dispatcher.cpp:184-193 | HasRemote on the hotspot registry |
| InternalEventDispatcher.WifiInternalEventDispatcher.AddBroadCastMsg | services/wifi_standard/wifi_framework/wifi_manage/wifi_internal_event_dispatcher.cpp:195-204 | returns 0 and appends the message at the back of the queue |
| InternalEventDispatcher.WifiInternalEventDispatcher.Dispatch | services/wifi_standard/wifi_framework/wifi_manage/wifi_internal_event_dispatcher.cpp:472-481 | definition: the effects of the handler Route chooses, applied to the current registries and single slots (none for an unrouted code); DispatchShape states their order |
| InternalEventDispatcher.WifiInternalEventDispatcher.InvokeDeviceCallbacks | services/wifi_standard/wifi_framework/wifi_manage/wifi_internal_event_dispatcher.cpp:312-342 | the station registry's notifications for the message's station method |
| InternalEventDispatcher.WifiInternalEventDispatcher.InvokeScanCallbacks | services/wifi_standard/wifi_framework/wifi_manage/wifi_internal_event_dispatcher.cpp:292-310 | the scan registry's notifications for the message's scan method |
| InternalEventDispatcher.WifiInternalEventDispatcher.InvokeHotspotCallbacks | services/wifi_standard/wifi_framework/wifi_manage/wifi_internal_event_dispatcher.cpp:344-368 | the hotspot registry's notifications for the message's hotspot method |
| InternalEventDispatcher.WifiInternalEventDispatcher.DealStaCallbackMsg | services/wifi_standard/wifi_framework/wifi_manage/wifi_internal_event_dispatcher.cpp:218-264 | the published station event (power, connection with its label, or RSSI), then the single callback's call, then the registry's calls |
| InternalEventDispatcher.WifiInternalEventDispatcher.DealScanCallbackMsg | services/wifi_standard/wifi_framework/wifi_manage/wifi_internal_event_dispatcher.cpp:266-290 | the published scan event, then the single callback's call, then the registry's calls |
| InternalEventDispatcher.WifiInternalEventDispatcher.DealHotspotCallbackMsg | services/wifi_standard/wifi_framework/wifi_manage/wifi_internal_event_dispatcher.cpp:370-392 | no published event; the single callback's call, then the registry's calls |
| InternalEventDispatcher.WifiInternalEventDispatcher.RunOnce | services/wifi_standard/wifi_framework/wifi_manage/wifi_internal_event_dispatcher.cpp:468-481 | an empty queue does nothing; otherwise the front message is removed and its effects are those of the routing chain applied to it |
| InternalEventDispatcher.DispatchInArrivalOrder | services/wifi_standard/wifi_framework/wifi_manage/wifi_internal_event_dispatcher.cpp:195-204 | two queued messages are dispatched in the order they were queued, and the queue ends empty |

## Left out

- Threading is not modelled, because its point is concurrency. This covers the broadcast thread, the condition-variable wait for a non-empty queue, the `mRunFlag` shutdown, `Init`, `Exit` and the mutexes. `Run` is modelled as one step: dequeue a message and route it. The wait on an empty queue becomes "nothing happens".
- `WifiCommonEventHelper::Publish*` is a foreign call. A publication is modelled as an effect that carries the event and its data label. The helper's success result, which only decides a log line, is not modelled.
- The IPC objects (`sptr`, `IRemoteObject` and the callback interfaces) are not modelled. Remotes and callbacks are integer ids, and 0 is null. A `std::map` keyed by `sptr` visits its keys in pointer order, which the model takes to be the ascending order of the ids.
- `SendSystemNotifyMsg` is not modelled: it does nothing and returns 0. `GetInstance` is not modelled either: the class is used as an ordinary object.
- Logging is not modelled, because it does not affect behaviour.
- The header constants and enumeration values are not shown, so the model picks them:
  - MIN_SSID_LEN = 1, MAX_SSID_LEN = 32, MIN_PSK_LEN = 8, MAX_PSK_LEN = 63;
  - MAC_STRING_SIZE = 17, AP_CHANNEL_DEFAULT = 6, HEX_TYPE_LEN = 3, SCAN_SCENE_ALL = 12;
  - the `WIFI_CBK_MSG_*` codes are 0x1001 to 0x1009, in the order the routing ranges need.
  
  The enumerations `KeyMgmt`, `BandType`, `ScanMode` and `OperateResState` name only the members the code uses, plus a catch-all for any other value.
- GetRandomStr: `std::random_device` is replaced by a sequence of non-negative draws. This avoids the `std::abs` of the most negative `int`. The fixed buffer is an array of MAX_PSK_LEN + 1 NUL characters.
- Characters are Dafny `char`, not C++ `char` bytes. The hex-digit and MAC checks compare code points the same way.
- The reference parameters become returned values, so the model does not capture aliasing between them and the caller's objects.
- The following headers contain only declarations, so there is no body to model:
  - `wifi_settings.h`;
  - `wifi_device_service_impl.h`;
  - `ap_idle_state.h`;
  - `wifi_event.h`. Its ten-listener limit is a comment only.

## Findings

| source | as written | input that shows it | evidently intended | confidence | as-written member | corrected member |
|---|---|---|---|---|---|---|
| services/wifi_standard/wifi_framework/common/utils/wifi_global_func.cpp:130-131 | the scene walk starts at `find(SCAN_SCENE_ALL)` and runs on to `end()`, so every scene with a larger key is also consulted | a forbid map whose SCAN_SCENE_ALL entry has no ANYTIME_SCAN rule, and whose scene SCAN_SCENE_ALL + 1 has one: the code refuses scanning at any time | only the rules listed under SCAN_SCENE_ALL decide: when SCAN_SCENE_ALL is absent the code ignores every other scene, so consulting them only when it is present is evidently not the design | not executed | WifiGlobalFunc.IsAllowScanAnyTime (counterexample: WifiGlobalFunc.ScanPolicyOverreach) | WifiGlobalFunc.IsAllowScanAnyTimeIntended (agreement: WifiGlobalFunc.ScanPolicyAgreesWithoutLaterScenes; exact difference: WifiGlobalFunc.ScanPolicyDifference) |

The model keeps the code's behaviour in `IsAllowScanAnyTime` and states the narrower lookup separately in `IsAllowScanAnyTimeIntended`. Whether any real scene key is larger than SCAN_SCENE_ALL depends on a header that is not part of this model.
