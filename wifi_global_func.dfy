/**
 * Wi-Fi utility and validation functions: hotspot configuration checks, band/channel
 * self-correction, frequency-to-channel conversion (IEEE 802.11 channel numbering), MAC address
 * syntax, string splitting, random key generation, scan policy lookup and the internal-to-public
 * connection state mapping.
 */
module WifiGlobalFunc {
  import opened WifiTypes
  import opened KeyOrder

  // ---------------------------------------------------------------------------------------------
  // Constants. The first group lives in headers that are not part of this model; the values are
  // the conventional ones (an SSID of 1..32 bytes, a WPA passphrase of 8..63 characters, the
  // 17-character "XX:XX:XX:XX:XX:XX" MAC form, three character classes for random keys).

  const MIN_SSID_LEN: int := 1
  const MAX_SSID_LEN: int := 32
  const MIN_PSK_LEN: int := 8
  const MAX_PSK_LEN: int := 63
  const MAC_STRING_SIZE: int := 17
  const AP_CHANNEL_DEFAULT: int := 6
  const HEX_TYPE_LEN: int := 3
  const SCAN_SCENE_ALL: int := 12

  const FREP_2G_MIN: int := 2412
  const FREP_2G_MAX: int := 2472
  const FREP_5G_MIN: int := 5170
  const FREP_5G_MAX: int := 5825
  const CHANNEL_14_FREP: int := 2484
  const CHANNEL_14: int := 14
  const CENTER_FREP_DIFF: int := 5
  const CHANNEL_2G_MIN: int := 1
  const CHANNEL_5G_MIN: int := 34

  // ---------------------------------------------------------------------------------------------
  // Hotspot configuration.

  datatype ErrCode = WIFI_OPT_SUCCESS | WIFI_OPT_INVALID_PARAM

  /** Only the key-management types the validator distinguishes are named. */
  datatype KeyMgmt = NONE | WPA_PSK | WPA2_PSK | OTHER_KEY_MGMT(code: int)

  datatype BandType = BAND_2GHZ | BAND_5GHZ | OTHER_BAND(code: int)

  /** One character stands for one byte of the C++ std::string. */
  datatype HotspotConfig = HotspotConfig(
    ssid: string,
    preSharedKey: string,
    securityType: KeyMgmt,
    band: BandType,
    channel: int)

  /** Band to the legal channels of that band, as the configuration center reports them. */
  type ChannelsTable = map<BandType, seq<int>>

  predicate SsidLengthValid(ssid: string)
  {
    MIN_SSID_LEN <= |ssid| <= MAX_SSID_LEN
  }

  predicate PskLengthValid(psk: string)
  {
    MIN_PSK_LEN <= |psk| <= MAX_PSK_LEN
  }

  /** The key rule: an open network carries no key, WPA/WPA2-PSK a key of legal length, nothing else is supported. */
  predicate KeyValid(cfg: HotspotConfig)
  {
    match cfg.securityType
    case NONE => cfg.preSharedKey == []
    case WPA_PSK => PskLengthValid(cfg.preSharedKey)
    case WPA2_PSK => PskLengthValid(cfg.preSharedKey)
    case OTHER_KEY_MGMT(_) => false
  }

  /** The channel list of a band; a band without an entry has none. */
  function ChannelsOf(table: ChannelsTable, band: BandType): seq<int>
  {
    if band in table then table[band] else []
  }

  predicate ChannelAllowed(table: ChannelsTable, band: BandType, channel: int)
  {
    band in table && channel in table[band]
  }

  /**
   * table' is table after `table[band]` was evaluated with std::map::operator[]: an empty entry
   * for band is added when it was missing, and nothing else changes.
   */
  predicate LookedUp(table: ChannelsTable, band: BandType, table': ChannelsTable)
  {
    && table'.Keys == table.Keys + {band}
    && table'[band] == ChannelsOf(table, band)
    && forall b :: b in table ==> table'[b] == table[b]
  }

  function CfgCheckSsid(cfg: HotspotConfig): (r: ErrCode)
    ensures r == WIFI_OPT_SUCCESS <==> SsidLengthValid(cfg.ssid)
  {
    if |cfg.ssid| < MIN_SSID_LEN || |cfg.ssid| > MAX_SSID_LEN then WIFI_OPT_INVALID_PARAM
    else WIFI_OPT_SUCCESS
  }

  function CfgCheckPsk(cfg: HotspotConfig): (r: ErrCode)
    ensures r == WIFI_OPT_SUCCESS <==> PskLengthValid(cfg.preSharedKey)
  {
    if |cfg.preSharedKey| < MIN_PSK_LEN || |cfg.preSharedKey| > MAX_PSK_LEN then WIFI_OPT_INVALID_PARAM
    else WIFI_OPT_SUCCESS
  }

  /** The linear search over the bands the center allows. */
  function CfgCheckBand(cfg: HotspotConfig, bandsFromCenter: seq<BandType>): (r: ErrCode)
    ensures r == WIFI_OPT_SUCCESS <==> cfg.band in bandsFromCenter
  {
    if bandsFromCenter == [] then WIFI_OPT_INVALID_PARAM
    else if cfg.band == bandsFromCenter[0] then WIFI_OPT_SUCCESS
    else CfgCheckBand(cfg, bandsFromCenter[1..])
  }

  /** Returns the verdict and the table after the operator[] lookup. */
  function CfgCheckChannel(cfg: HotspotConfig, channInfoFromCenter: ChannelsTable): (r: (ErrCode, ChannelsTable))
    ensures r.0 == WIFI_OPT_SUCCESS <==> ChannelAllowed(channInfoFromCenter, cfg.band, cfg.channel)
    ensures LookedUp(channInfoFromCenter, cfg.band, r.1)
  {
    var table := if cfg.band in channInfoFromCenter then channInfoFromCenter
                 else channInfoFromCenter[cfg.band := []];
    var channels := table[cfg.band];
    (if cfg.channel in channels then WIFI_OPT_SUCCESS else WIFI_OPT_INVALID_PARAM, table)
  }

  /** The band and channel rule: only values that differ from the center's are checked. */
  predicate BandChannelValid(cfg: HotspotConfig, cfgFromCenter: HotspotConfig,
                             bandsFromCenter: seq<BandType>, channInfoFromCenter: ChannelsTable)
  {
    && (cfg.band != cfgFromCenter.band ==> cfg.band in bandsFromCenter)
    && (cfg.channel != cfgFromCenter.channel ==> cfg.channel in ChannelsOf(channInfoFromCenter, cfg.band))
  }

  /**
   * Fail-fast validation of a hotspot configuration against the center's configuration, its
   * allowed bands and its channel table. Returns the verdict and the channel table, which the
   * channel check may extend with an empty entry.
   */
  function IsValidHotspotConfig(cfg: HotspotConfig, cfgFromCenter: HotspotConfig,
                                bandsFromCenter: seq<BandType>, channInfoFromCenter: ChannelsTable)
    : (r: (ErrCode, ChannelsTable))
    // The SSID check comes first: a bad SSID fails whatever the rest, and the table is untouched.
    ensures !SsidLengthValid(cfg.ssid) ==> r == (WIFI_OPT_INVALID_PARAM, channInfoFromCenter)
    // Both directions of the acceptance rule.
    ensures r.0 == WIFI_OPT_SUCCESS <==>
              && SsidLengthValid(cfg.ssid)
              && KeyValid(cfg)
              && BandChannelValid(cfg, cfgFromCenter, bandsFromCenter, channInfoFromCenter)
    // The table changes only when the channel check is performed, and then only by the lookup.
    ensures r.1 == channInfoFromCenter
            || (&& SsidLengthValid(cfg.ssid) && KeyValid(cfg)
                && (cfg.band != cfgFromCenter.band ==> cfg.band in bandsFromCenter)
                && cfg.channel != cfgFromCenter.channel
                && cfg.band !in channInfoFromCenter
                && LookedUp(channInfoFromCenter, cfg.band, r.1))
    // Conversely, whenever the channel check is performed its lookup does take effect.
    ensures && SsidLengthValid(cfg.ssid) && KeyValid(cfg)
            && (cfg.band != cfgFromCenter.band ==> cfg.band in bandsFromCenter)
            && cfg.channel != cfgFromCenter.channel
            ==> LookedUp(channInfoFromCenter, cfg.band, r.1)
  {
    if CfgCheckSsid(cfg) == WIFI_OPT_INVALID_PARAM then (WIFI_OPT_INVALID_PARAM, channInfoFromCenter)
    else if cfg.securityType == NONE && |cfg.preSharedKey| > 0 then (WIFI_OPT_INVALID_PARAM, channInfoFromCenter)
    else if (cfg.securityType == WPA_PSK || cfg.securityType == WPA2_PSK) && CfgCheckPsk(cfg) == WIFI_OPT_INVALID_PARAM
    then (WIFI_OPT_INVALID_PARAM, channInfoFromCenter)
    else if cfg.securityType != NONE && cfg.securityType != WPA_PSK && cfg.securityType != WPA2_PSK
    then (WIFI_OPT_INVALID_PARAM, channInfoFromCenter)
    else if cfg.band != cfgFromCenter.band && CfgCheckBand(cfg, bandsFromCenter) == WIFI_OPT_INVALID_PARAM
    then (WIFI_OPT_INVALID_PARAM, channInfoFromCenter)
    else if cfg.channel != cfgFromCenter.channel then
      var checked := CfgCheckChannel(cfg, channInfoFromCenter);
      (if checked.0 == WIFI_OPT_INVALID_PARAM then WIFI_OPT_INVALID_PARAM else WIFI_OPT_SUCCESS, checked.1)
    else (WIFI_OPT_SUCCESS, channInfoFromCenter)
  }

  /**
   * Self-correction at apply time: a configuration whose channel is not in the table's list for
   * its band falls back to the 2.4 GHz band and the default channel. Never fails.
   */
  method CheckBandChannel(apConfig: HotspotConfig, validChanTable: ChannelsTable) returns (r: HotspotConfig)
    ensures ChannelAllowed(validChanTable, apConfig.band, apConfig.channel) ==> r == apConfig
    ensures !ChannelAllowed(validChanTable, apConfig.band, apConfig.channel) ==>
              r == apConfig.(band := BAND_2GHZ, channel := AP_CHANNEL_DEFAULT)
    // Afterwards the pair is legal or the default, so correcting r again would change nothing.
    ensures ChannelAllowed(validChanTable, r.band, r.channel)
            || (r.band == BAND_2GHZ && r.channel == AP_CHANNEL_DEFAULT)
    ensures r.ssid == apConfig.ssid && r.preSharedKey == apConfig.preSharedKey
    ensures r.securityType == apConfig.securityType
  {
    var cfgValid := false;
    if apConfig.band in validChanTable && |validChanTable[apConfig.band]| != 0 {
      var channels := validChanTable[apConfig.band];
      var i := 0;
      while i < |channels|
        invariant 0 <= i <= |channels|
        invariant !cfgValid
        invariant apConfig.channel !in channels[..i]
      {
        if channels[i] == apConfig.channel {
          cfgValid := true;
          break;
        }
        i := i + 1;
      }
      assert !cfgValid ==> channels[..i] == channels;
    }
    r := apConfig;
    if !cfgValid {
      r := r.(band := BAND_2GHZ);
      r := r.(channel := AP_CHANNEL_DEFAULT);
    }
  }

  // ---------------------------------------------------------------------------------------------
  // Random key generation. The hardware random source becomes a sequence of non-negative draws.

  predicate IsAlphanumeric(c: char)
  {
    'a' <= c <= 'z' || 'A' <= c <= 'Z' || '0' <= c <= '9'
  }

  /** The length GetRandomStr produces: len capped at MAX_PSK_LEN, and nothing for a negative len. */
  function RandomStrLength(len: int): nat
  {
    if len > MAX_PSK_LEN then MAX_PSK_LEN else if len < 0 then 0 else len
  }

  /** One character from one draw: the draw modulo 3 picks the class, modulo the class size the character. */
  function RandomChar(rndnum: nat): (c: char)
    ensures IsAlphanumeric(c)
  {
    if rndnum % HEX_TYPE_LEN == 0 then (rndnum % ('z' as int - 'a' as int + 1) + 'a' as int) as char
    else if rndnum % HEX_TYPE_LEN == 1 then (rndnum % ('Z' as int - 'A' as int + 1) + 'A' as int) as char
    else (rndnum % ('9' as int - '0' as int + 1) + '0' as int) as char
  }

  /** The std::string built from a char buffer: everything before the first NUL. */
  function CString(buf: seq<char>): (s: string)
    ensures |s| <= |buf| && s == buf[..|s|]
    ensures '\0' !in s
    ensures |s| < |buf| ==> buf[|s|] == '\0'
  {
    if buf == [] || buf[0] == '\0' then [] else [buf[0]] + CString(buf[1..])
  }

  lemma CStringOfTerminated(buf: seq<char>, n: nat)
    requires n < |buf| && buf[n] == '\0'
    requires forall k :: 0 <= k < n ==> buf[k] != '\0'
    ensures CString(buf) == buf[..n]
  {
  }

  method GetRandomStr(len: int, draws: seq<nat>) returns (res: string)
    requires |draws| >= RandomStrLength(len)
    ensures |res| == RandomStrLength(len)
    ensures forall i :: 0 <= i < |res| ==> res[i] == RandomChar(draws[i])
    ensures forall i :: 0 <= i < |res| ==> IsAlphanumeric(res[i])
  {
    var rndbuf := new char[MAX_PSK_LEN + 1]((_) => '\0');
    var n := len;
    if n > MAX_PSK_LEN {
      n := MAX_PSK_LEN;
    }
    var i := 0;
    while i < n
      invariant 0 <= i <= RandomStrLength(len)
      invariant n <= 0 ==> i == 0
      invariant n > 0 ==> n == RandomStrLength(len)
      invariant forall k :: 0 <= k < i ==> rndbuf[k] == RandomChar(draws[k])
      invariant forall k :: i <= k < rndbuf.Length ==> rndbuf[k] == '\0'
    {
      rndbuf[i] := RandomChar(draws[i]);
      i := i + 1;
    }
    assert i == RandomStrLength(len);
    CStringOfTerminated(rndbuf[..], i);
    res := CString(rndbuf[..]);
  }

  // ---------------------------------------------------------------------------------------------
  // Scan policy.

  /** Only ANYTIME_SCAN is distinguished by the policy; every other mode is folded into one case. */
  datatype ScanMode = ANYTIME_SCAN | OTHER_SCAN_MODE(code: int)

  datatype ScanForbidMode = ScanForbidMode(scanMode: ScanMode)

  /** Scan scene to the forbid rules registered for it. */
  datatype ScanControlInfo = ScanControlInfo(scanForbidMap: map<int, seq<ScanForbidMode>>)

  predicate HasAnytimeRule(rules: seq<ScanForbidMode>)
  {
    exists i :: 0 <= i < |rules| && rules[i].scanMode == ANYTIME_SCAN
  }

  /** The inner loop: true when it would return false, i.e. on the first ANYTIME_SCAN rule. */
  function ScanRules(rules: seq<ScanForbidMode>): (found: bool)
    ensures found <==> HasAnytimeRule(rules)
  {
    if rules == [] then false
    else if rules[0].scanMode == ANYTIME_SCAN then true
    else
      var found := ScanRules(rules[1..]);
      assert found ==> HasAnytimeRule(rules) by {
        if found {
          var i :| 0 <= i < |rules[1..]| && rules[1..][i].scanMode == ANYTIME_SCAN;
          assert rules[i + 1].scanMode == ANYTIME_SCAN;
        }
      }
      assert HasAnytimeRule(rules) ==> found by {
        if HasAnytimeRule(rules) {
          var i :| 0 <= i < |rules| && rules[i].scanMode == ANYTIME_SCAN;
          assert rules[1..][i - 1].scanMode == ANYTIME_SCAN;
        }
      }
      found
  }

  /** The outer loop: visits the pending scenes in ascending key order, as the map iterator does. */
  function ScanScenes(forbidMap: map<int, seq<ScanForbidMode>>, pending: set<int>): (allowed: bool)
    requires pending <= forbidMap.Keys
    ensures allowed <==> forall k :: k in pending ==> !HasAnytimeRule(forbidMap[k])
    decreases pending
  {
    if pending == {} then true
    else
      var scene := SmallestKey(pending);
      if ScanRules(forbidMap[scene]) then false else ScanScenes(forbidMap, pending - {scene})
  }

  /** The scenes the source's loop visits: SCAN_SCENE_ALL and every key after it in the map. */
  function ScenesFromAll(forbidMap: map<int, seq<ScanForbidMode>>): set<int>
  {
    set k | k in forbidMap && k >= SCAN_SCENE_ALL
  }

  function IsAllowScanAnyTime(info: ScanControlInfo): (allowed: bool)
    ensures SCAN_SCENE_ALL !in info.scanForbidMap ==> allowed
    ensures SCAN_SCENE_ALL in info.scanForbidMap ==>
              (!allowed <==> exists k :: k in info.scanForbidMap && k >= SCAN_SCENE_ALL
                                        && HasAnytimeRule(info.scanForbidMap[k]))
  {
    if SCAN_SCENE_ALL !in info.scanForbidMap then true
    else ScanScenes(info.scanForbidMap, ScenesFromAll(info.scanForbidMap))
  }

  /** The evidently intended policy: only the rules under SCAN_SCENE_ALL are consulted. */
  function IsAllowScanAnyTimeIntended(info: ScanControlInfo): (allowed: bool)
    ensures !allowed <==> SCAN_SCENE_ALL in info.scanForbidMap && HasAnytimeRule(info.scanForbidMap[SCAN_SCENE_ALL])
  {
    SCAN_SCENE_ALL !in info.scanForbidMap || !ScanRules(info.scanForbidMap[SCAN_SCENE_ALL])
  }

  /** An ANYTIME_SCAN rule under a scene after SCAN_SCENE_ALL makes the source refuse anytime scans. */
  lemma ScanPolicyOverreach()
    ensures var info := ScanControlInfo(map[SCAN_SCENE_ALL := [], SCAN_SCENE_ALL + 1 := [ScanForbidMode(ANYTIME_SCAN)]]);
            !IsAllowScanAnyTime(info) && IsAllowScanAnyTimeIntended(info)
  {
    var info := ScanControlInfo(map[SCAN_SCENE_ALL := [], SCAN_SCENE_ALL + 1 := [ScanForbidMode(ANYTIME_SCAN)]]);
    assert HasAnytimeRule(info.scanForbidMap[SCAN_SCENE_ALL + 1]) by {
      assert info.scanForbidMap[SCAN_SCENE_ALL + 1][0].scanMode == ANYTIME_SCAN;
    }
    assert !HasAnytimeRule(info.scanForbidMap[SCAN_SCENE_ALL]);
  }

  /** The two agree whenever no scene after SCAN_SCENE_ALL has an ANYTIME_SCAN rule. */
  lemma {:induction false} ScanPolicyAgreesWithoutLaterScenes(info: ScanControlInfo)
    requires forall k :: k in info.scanForbidMap && k > SCAN_SCENE_ALL ==> !HasAnytimeRule(info.scanForbidMap[k])
    ensures IsAllowScanAnyTime(info) == IsAllowScanAnyTimeIntended(info)
  {
    if SCAN_SCENE_ALL in info.scanForbidMap {
      if !IsAllowScanAnyTime(info) {
        var k :| k in info.scanForbidMap && k >= SCAN_SCENE_ALL && HasAnytimeRule(info.scanForbidMap[k]);
        assert k == SCAN_SCENE_ALL;
      }
    }
  }

  /**
   * Exactly when the code as written and the intended lookup differ: SCAN_SCENE_ALL is present
   * without an ANYTIME_SCAN rule, and some later scene has one. The code then refuses.
   */
  lemma ScanPolicyDifference(info: ScanControlInfo)
    ensures IsAllowScanAnyTime(info) != IsAllowScanAnyTimeIntended(info) <==>
              && SCAN_SCENE_ALL in info.scanForbidMap
              && !HasAnytimeRule(info.scanForbidMap[SCAN_SCENE_ALL])
              && exists k :: k in info.scanForbidMap && k > SCAN_SCENE_ALL && HasAnytimeRule(info.scanForbidMap[k])
    ensures IsAllowScanAnyTime(info) ==> IsAllowScanAnyTimeIntended(info)
  {
    if SCAN_SCENE_ALL in info.scanForbidMap && !IsAllowScanAnyTime(info)
       && !HasAnytimeRule(info.scanForbidMap[SCAN_SCENE_ALL]) {
      var k :| k in info.scanForbidMap && k >= SCAN_SCENE_ALL && HasAnytimeRule(info.scanForbidMap[k]);
      assert k > SCAN_SCENE_ALL;
    }
  }

  // ---------------------------------------------------------------------------------------------
  // Internal operation result to public connection state.

  /** The fourteen internal results the mapping names; every other result is folded into one case. */
  datatype OperateResState =
    | CONNECT_CONNECTING
    | CONNECT_AP_CONNECTED
    | CONNECT_CHECK_PORTAL
    | CONNECT_NETWORK_ENABLED
    | CONNECT_NETWORK_DISABLED
    | DISCONNECT_DISCONNECTING
    | DISCONNECT_DISCONNECT_FAILED
    | DISCONNECT_DISCONNECTED
    | CONNECT_PASSWORD_WRONG
    | CONNECT_CONNECTING_TIMEOUT
    | CONNECT_OBTAINING_IP
    | CONNECT_OBTAINING_IP_FAILED
    | CONNECT_ASSOCIATING
    | CONNECT_ASSOCIATED
    | OTHER_RES_STATE(code: int)

  function OperateResStateName(s: OperateResState): string
  {
    match s
    case CONNECT_CONNECTING => "CONNECT_CONNECTING"
    case CONNECT_AP_CONNECTED => "CONNECT_AP_CONNECTED"
    case CONNECT_CHECK_PORTAL => "CONNECT_CHECK_PORTAL"
    case CONNECT_NETWORK_ENABLED => "CONNECT_NETWORK_ENABLED"
    case CONNECT_NETWORK_DISABLED => "CONNECT_NETWORK_DISABLED"
    case DISCONNECT_DISCONNECTING => "DISCONNECT_DISCONNECTING"
    case DISCONNECT_DISCONNECT_FAILED => "DISCONNECT_DISCONNECT_FAILED"
    case DISCONNECT_DISCONNECTED => "DISCONNECT_DISCONNECTED"
    case CONNECT_PASSWORD_WRONG => "CONNECT_PASSWORD_WRONG"
    case CONNECT_CONNECTING_TIMEOUT => "CONNECT_CONNECTING_TIMEOUT"
    case CONNECT_OBTAINING_IP => "CONNECT_OBTAINING_IP"
    case CONNECT_OBTAINING_IP_FAILED => "CONNECT_OBTAINING_IP_FAILED"
    case CONNECT_ASSOCIATING => "CONNECT_ASSOCIATING"
    case CONNECT_ASSOCIATED => "CONNECT_ASSOCIATED"
    case OTHER_RES_STATE(_) => "OTHER"
  }

  function ConvertConnStateInternal(resState: OperateResState): (r: ConnectionState)
    ensures r == ConnectionState.UNKNOWN <==> resState.OTHER_RES_STATE?
    ensures !resState.OTHER_RES_STATE? ==> ConnectionStateName(r) == OperateResStateName(resState)
  {
    match resState
    case CONNECT_CONNECTING => ConnectionState.CONNECT_CONNECTING
    case CONNECT_AP_CONNECTED => ConnectionState.CONNECT_AP_CONNECTED
    case CONNECT_CHECK_PORTAL => ConnectionState.CONNECT_CHECK_PORTAL
    case CONNECT_NETWORK_ENABLED => ConnectionState.CONNECT_NETWORK_ENABLED
    case CONNECT_NETWORK_DISABLED => ConnectionState.CONNECT_NETWORK_DISABLED
    case DISCONNECT_DISCONNECTING => ConnectionState.DISCONNECT_DISCONNECTING
    case DISCONNECT_DISCONNECT_FAILED => ConnectionState.DISCONNECT_DISCONNECT_FAILED
    case DISCONNECT_DISCONNECTED => ConnectionState.DISCONNECT_DISCONNECTED
    case CONNECT_PASSWORD_WRONG => ConnectionState.CONNECT_PASSWORD_WRONG
    case CONNECT_CONNECTING_TIMEOUT => ConnectionState.CONNECT_CONNECTING_TIMEOUT
    case CONNECT_OBTAINING_IP => ConnectionState.CONNECT_OBTAINING_IP
    case CONNECT_OBTAINING_IP_FAILED => ConnectionState.CONNECT_OBTAINING_IP_FAILED
    case CONNECT_ASSOCIATING => ConnectionState.CONNECT_ASSOCIATING
    case CONNECT_ASSOCIATED => ConnectionState.CONNECT_ASSOCIATED
    case OTHER_RES_STATE(_) => ConnectionState.UNKNOWN
  }

  // ---------------------------------------------------------------------------------------------
  // MAC address syntax.

  const HEX_DIGITS: string := "0123456789abcdef"

  predicate IsHexDigit(c: char)
  {
    '0' <= c <= '9' || 'a' <= c <= 'f' || 'A' <= c <= 'F'
  }

  function LowerHex(c: char): char
  {
    if 'A' <= c <= 'F' then (c as int - 'A' as int + 'a' as int) as char else c
  }

  /** The value of a hexadecimal digit of either case, -1 for any other character. */
  function IsValidHexCharAndConvert(c: char): (v: int)
    ensures -1 <= v <= 15
    ensures v >= 0 <==> IsHexDigit(c)
    ensures v >= 0 ==> HEX_DIGITS[v] == LowerHex(c)
  {
    if '0' <= c <= '9' then c as int - '0' as int
    else if 'a' <= c <= 'f' then c as int - 'a' as int + ('9' as int - '0' as int + 1)
    else if 'A' <= c <= 'F' then c as int - 'A' as int + ('9' as int - '0' as int + 1)
    else -1
  }

  /** The "XX:XX:XX:XX:XX:XX" form: a colon at every third position, a hex digit everywhere else. */
  predicate IsMacString(s: string)
  {
    && |s| == MAC_STRING_SIZE
    && forall i :: 0 <= i < |s| ==> if i % 3 == 2 then s[i] == ':' else IsHexDigit(s[i])
  }

  method CheckMacIsValid(macStr: string) returns (r: int)
    ensures r == 0 || r == -1
    ensures r == 0 <==> IsMacString(macStr)
  {
    if |macStr| != MAC_STRING_SIZE {
      return -1;
    }
    var i, j := 0, 0;
    while i < MAC_STRING_SIZE
      invariant 0 <= i <= MAC_STRING_SIZE
      invariant j == i % 3
      invariant forall k :: 0 <= k < i ==> if k % 3 == 2 then macStr[k] == ':' else IsHexDigit(macStr[k])
    {
      if j == 0 || j == 1 {
        var v := IsValidHexCharAndConvert(macStr[i]);
        if v < 0 {
          return -1;
        }
        j := j + 1;
      } else {
        if macStr[i] != ':' {
          return -1;
        }
        j := 0;
      }
      i := i + 1;
    }
    return 0;
  }

  // ---------------------------------------------------------------------------------------------
  // String splitting.

  predicate OccursAt(s: string, pat: string, k: int)
  {
    0 <= k && k + |pat| <= |s| && s[k..k + |pat|] == pat
  }

  ghost predicate Contains(s: string, pat: string)
  {
    exists k :: OccursAt(s, pat, k)
  }

  /** std::string::find: the first occurrence of pat at or after from; None stands for npos. */
  function Find(s: string, pat: string, from: nat): (r: Option<nat>)
    ensures r.Some? ==> from <= r.value && OccursAt(s, pat, r.value)
    ensures forall k :: from <= k && (r.None? || k < r.value) ==> !OccursAt(s, pat, k)
    decreases |s| - from
  {
    if from + |pat| > |s| then None
    else if s[from..from + |pat|] == pat then Some(from)
    else Find(s, pat, from + 1)
  }

  /** The pieces the split loop appends from position begPos on. */
  function Pieces(str: string, split: string, begPos: nat): seq<string>
    requires split != [] && begPos <= |str|
    decreases |str| - begPos
  {
    match Find(str, split, begPos)
    case None => if begPos < |str| then [str[begPos..]] else []
    case Some(endPos) =>
      (if endPos > begPos then [str[begPos..endPos]] else []) + Pieces(str, split, endPos + |split|)
  }

  /** What SplitString appends: the whole input for an empty delimiter, the pieces otherwise. */
  function Split(str: string, split: string): seq<string>
  {
    if split == [] then [str] else Pieces(str, split, 0)
  }

  /** One turn of the split loop: Pieces from begPos unfolded once. */
  lemma PiecesStep(str: string, split: string, begPos: nat)
    requires split != [] && begPos <= |str|
    ensures Find(str, split, begPos).None? ==>
              Pieces(str, split, begPos) == (if begPos < |str| then [str[begPos..]] else [])
    ensures Find(str, split, begPos).Some? ==>
              var endPos := Find(str, split, begPos).value;
              Pieces(str, split, begPos)
              == (if endPos > begPos then [str[begPos..endPos]] else []) + Pieces(str, split, endPos + |split|)
  {
  }

  method SplitString(str: string, split: string, vec: seq<string>) returns (out: seq<string>)
    ensures out == vec + Split(str, split)
    ensures split == [] ==> out == vec + [str]
    ensures split != [] ==> forall i :: |vec| <= i < |out| ==> out[i] != [] && !Contains(out[i], split)
  {
    if split == [] {
      out := vec + [str];
      return;
    }
    var begPos: nat := 0;
    out := vec;
    var found := Find(str, split, begPos);
    while found.Some?
      invariant begPos <= |str|
      invariant found == Find(str, split, begPos)
      invariant vec + Pieces(str, split, 0) == out + Pieces(str, split, begPos)
      decreases |str| - begPos
    {
      var endPos := found.value;
      SplitLoopStep(str, split, vec, out, begPos);
      if endPos > begPos {
        out := out + [str[begPos..endPos]];
      }
      begPos := endPos + |split|;
      found := Find(str, split, begPos);
    }
    var tmpStr := str[begPos..];
    SplitLoopExit(str, split, vec, out, begPos);
    if tmpStr != [] {
      out := out + [tmpStr];
    }
    AppendedPiecesWellFormed(str, split, vec, out);
  }

  /** The split loop's invariant survives one turn. */
  lemma SplitLoopStep(str: string, split: string, vec: seq<string>, out: seq<string>, begPos: nat)
    requires split != [] && begPos <= |str|
    requires Find(str, split, begPos).Some?
    requires vec + Pieces(str, split, 0) == out + Pieces(str, split, begPos)
    ensures var endPos := Find(str, split, begPos).value;
            var out' := if endPos > begPos then out + [str[begPos..endPos]] else out;
            endPos + |split| <= |str| && vec + Pieces(str, split, 0) == out' + Pieces(str, split, endPos + |split|)
  {
    var endPos := Find(str, split, begPos).value;
    var rest := Pieces(str, split, endPos + |split|);
    PiecesStep(str, split, begPos);
    if endPos <= begPos {
      assert Pieces(str, split, begPos) == rest;
    }
  }

  /** When no delimiter is left, the loop's tail is the last piece. */
  lemma SplitLoopExit(str: string, split: string, vec: seq<string>, out: seq<string>, begPos: nat)
    requires split != [] && begPos <= |str|
    requires Find(str, split, begPos).None?
    requires vec + Pieces(str, split, 0) == out + Pieces(str, split, begPos)
    ensures vec + Split(str, split) == if str[begPos..] != [] then out + [str[begPos..]] else out
  {
    PiecesStep(str, split, begPos);
    if str[begPos..] == [] {
      assert out + [] == out;
    }
  }

  lemma AppendedPiecesWellFormed(str: string, split: string, vec: seq<string>, out: seq<string>)
    requires split != [] && out == vec + Pieces(str, split, 0)
    ensures forall i :: |vec| <= i < |out| ==> out[i] != [] && !Contains(out[i], split)
  {
    PiecesWellFormed(str, split, 0);
    forall i | |vec| <= i < |out| ensures out[i] != [] && !Contains(out[i], split) {
      assert out[i] == Pieces(str, split, 0)[i - |vec|];
      assert out[i] in Pieces(str, split, 0);
    }
  }

  /** An occurrence inside a slice is an occurrence in the whole string. */
  lemma OccursInSlice(s: string, lo: nat, hi: nat, pat: string, k: int)
    requires lo <= hi <= |s|
    requires OccursAt(s[lo..hi], pat, k)
    ensures OccursAt(s, pat, lo + k)
  {
    var t := s[lo..hi];
    forall i | 0 <= i < |pat| ensures s[lo + k + i] == pat[i] {
      assert t[k..k + |pat|][i] == pat[i];
      assert t[k + i] == s[lo + k + i];
    }
    assert s[lo + k..lo + k + |pat|] == pat;
  }

  /** Every piece is non-empty and holds no occurrence of the delimiter. */
  lemma {:induction false} PiecesWellFormed(str: string, split: string, begPos: nat)
    requires split != [] && begPos <= |str|
    ensures forall p :: p in Pieces(str, split, begPos) ==> p != [] && !Contains(p, split)
    decreases |str| - begPos
  {
    match Find(str, split, begPos)
    case None =>
      if begPos < |str| {
        var p := str[begPos..];
        assert p == str[begPos..|str|];
        if Contains(p, split) {
          var k :| OccursAt(p, split, k);
          OccursInSlice(str, begPos, |str|, split, k);
          assert false;
        }
      }
    case Some(endPos) =>
      PiecesWellFormed(str, split, endPos + |split|);
      if endPos > begPos {
        var p := str[begPos..endPos];
        if Contains(p, split) {
          var k :| OccursAt(p, split, k);
          OccursInSlice(str, begPos, endPos, split, k);
          assert false;
        }
      }
  }

  /** Where find locates the delimiter in the example, from every start position it is called with. */
  lemma FindExample()
    ensures Find("a,,b,", ",", 0) == Some(1) && Find("a,,b,", ",", 2) == Some(2)
    ensures Find("a,,b,", ",", 3) == Some(4) && Find("a,,b,", ",", 5) == None
  {
    var s := "a,,b,";
    assert s[0..1] == "a" && s[1..2] == "," && s[2..3] == "," && s[3..4] == "b" && s[4..5] == ",";
    assert Find(s, ",", 1) == Some(1);
    assert Find(s, ",", 4) == Some(4);
  }

  /** Empty pieces between adjacent delimiters and after a trailing one are dropped. */
  lemma SplitExample()
    ensures Split("a,,b,", ",") == ["a", "b"]
  {
    var s := "a,,b,";
    FindExample();
    assert s[0..1] == "a" && s[3..4] == "b";
    assert Pieces(s, ",", 5) == [];
    assert Pieces(s, ",", 3) == ["b"];
    assert Pieces(s, ",", 2) == ["b"];
    assert Pieces(s, ",", 0) == ["a", "b"];
  }

  // ---------------------------------------------------------------------------------------------
  // Frequency to channel (IEEE 802.11 channel numbering) and band classification.

  /** The offsets divided are never negative, so Dafny's division agrees with the truncating C++ one. */
  function FrequencyToChannel(freq: int): (r: Option<int>)
    ensures r.Some? <==> (FREP_2G_MIN <= freq <= FREP_2G_MAX || freq == CHANNEL_14_FREP
                          || FREP_5G_MIN <= freq <= FREP_5G_MAX)
    ensures r.Some? ==> (1 <= r.value <= 14 && IsValid24GHz(freq) && !IsValid5GHz(freq))
                        || (34 <= r.value <= 165 && IsValid5GHz(freq) && !IsValid24GHz(freq))
  {
    if FREP_2G_MIN <= freq <= FREP_2G_MAX then
      Some((freq - FREP_2G_MIN) / CENTER_FREP_DIFF + CHANNEL_2G_MIN)
    else if freq == CHANNEL_14_FREP then Some(CHANNEL_14)
    else if FREP_5G_MIN <= freq <= FREP_5G_MAX then
      Some((freq - FREP_5G_MIN) / CENTER_FREP_DIFF + CHANNEL_5G_MIN)
    else None
  }

  /** The centre frequency of a channel: the inverse of the conversion on its 5 MHz grid. */
  function ChannelToFrequency(channel: int): Option<int>
  {
    if 1 <= channel <= 13 then Some(2407 + 5 * channel)
    else if channel == 14 then Some(2484)
    else if 34 <= channel <= 165 then Some(5000 + 5 * channel)
    else None
  }

  /** A known frequency on the channel grid comes back from its channel. */
  lemma FrequencyChannelRoundTrip(freq: int)
    requires FrequencyToChannel(freq).Some?
    requires (FREP_2G_MIN <= freq <= FREP_2G_MAX ==> (freq - FREP_2G_MIN) % CENTER_FREP_DIFF == 0)
    requires (FREP_5G_MIN <= freq <= FREP_5G_MAX ==> (freq - FREP_5G_MIN) % CENTER_FREP_DIFF == 0)
    ensures ChannelToFrequency(FrequencyToChannel(freq).value) == Some(freq)
  {
  }

  /** Every channel with a centre frequency is what that frequency converts to. */
  lemma ChannelFrequencyRoundTrip(channel: int)
    requires ChannelToFrequency(channel).Some?
    ensures FrequencyToChannel(ChannelToFrequency(channel).value) == Some(channel)
  {
  }

  /** The 2.4 GHz band: every 2.4 GHz channel frequency is in it, and no 5 GHz frequency is. */
  function IsValid24GHz(freq: int): (r: bool)
    ensures FREP_2G_MIN <= freq <= FREP_2G_MAX || freq == CHANNEL_14_FREP ==> r
    ensures r ==> !IsValid5GHz(freq)
  {
    freq > 2400 && freq < 2500
  }

  /** The 5 GHz band: every 5 GHz channel frequency is in it, and no 2.4 GHz channel frequency is. */
  function IsValid5GHz(freq: int): (r: bool)
    ensures FREP_5G_MIN <= freq <= FREP_5G_MAX ==> r
    ensures r ==> !(FREP_2G_MIN <= freq <= CHANNEL_14_FREP)
  {
    freq > 4900 && freq < 5900
  }

  /** The bands are open intervals: their end points are excluded. */
  lemma BandBoundaries()
    ensures !IsValid24GHz(2400) && IsValid24GHz(2401) && IsValid24GHz(2499) && !IsValid24GHz(2500)
    ensures !IsValid5GHz(4900) && IsValid5GHz(4901) && IsValid5GHz(5899) && !IsValid5GHz(5900)
  {
  }

  /** The channels of the known input frequencies, in input order. */
  function Channels(freqs: seq<int>): seq<int>
  {
    if freqs == [] then []
    else
      var init := Channels(freqs[..|freqs| - 1]);
      match FrequencyToChannel(freqs[|freqs| - 1])
      case Some(c) => init + [c]
      case None => init
  }

  /** The conversion distributes over concatenation: pieces of the input convert independently, in order. */
  lemma {:induction false} ChannelsAppend(a: seq<int>, b: seq<int>)
    ensures Channels(a + b) == Channels(a) + Channels(b)
    decreases |b|
  {
    if b == [] {
      assert a + b == a;
    } else {
      var b' := b[..|b| - 1];
      assert (a + b)[..|a + b| - 1] == a + b';
      assert (a + b)[|a + b| - 1] == b[|b| - 1];
      ChannelsAppend(a, b');
    }
  }

  /** One frequency yields its channel or nothing. */
  lemma ChannelsSingleton(freq: int)
    ensures Channels([freq]) == match FrequencyToChannel(freq) case Some(c) => [c] case None => []
  {
    assert [freq][..0] == [];
  }

  /** At most one channel per frequency, and every channel is a legal 2.4 or 5 GHz channel. */
  lemma {:induction false} ChannelsBounded(freqs: seq<int>)
    ensures |Channels(freqs)| <= |freqs|
    ensures forall c :: c in Channels(freqs) ==> 1 <= c <= 14 || 34 <= c <= 165
  {
    if freqs != [] {
      ChannelsBounded(freqs[..|freqs| - 1]);
    }
  }

  method TransformFrequencyIntoChannel(freqVector: seq<int>, chanVector: seq<int>) returns (out: seq<int>)
    ensures out == chanVector + Channels(freqVector)
    ensures |chanVector| <= |out| <= |chanVector| + |freqVector|
  {
    out := chanVector;
    var i := 0;
    while i < |freqVector|
      invariant 0 <= i <= |freqVector|
      invariant out == chanVector + Channels(freqVector[..i])
    {
      var f := freqVector[i];
      assert freqVector[..i + 1][..i] == freqVector[..i];
      if FREP_2G_MIN <= f <= FREP_2G_MAX {
        out := out + [(f - FREP_2G_MIN) / CENTER_FREP_DIFF + CHANNEL_2G_MIN];
      } else if f == CHANNEL_14_FREP {
        out := out + [CHANNEL_14];
      } else if FREP_5G_MIN <= f <= FREP_5G_MAX {
        out := out + [(f - FREP_5G_MIN) / CENTER_FREP_DIFF + CHANNEL_5G_MIN];
      }
      i := i + 1;
    }
    assert freqVector[..i] == freqVector;
    ChannelsBounded(freqVector);
  }
}
