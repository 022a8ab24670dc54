/** Types shared by the Wi-Fi utility functions and the internal event dispatcher. */
module WifiTypes {

  datatype Option<T> = None | Some(value: T)

  /** The public connection state. Its integer codes (see StateCode) are what event messages carry. */
  datatype ConnectionState =
    | CONNECT_CONNECTING
    | CONNECT_AP_CONNECTED
    | CONNECT_CHECK_PORTAL
    | CONNECT_NETWORK_ENABLED
    | CONNECT_NETWORK_DISABLED
    | DISCONNECT_DISCONNECTING
    | DISCONNECT_DISCONNECT_FAILED
    | DISCONNECT_DISCONNECTED
    | CONNECT_PASSWORD_WRONG
    | CONNECT_CONNECTING_TIMEOUT
    | CONNECT_OBTAINING_IP
    | CONNECT_OBTAINING_IP_FAILED
    | CONNECT_ASSOCIATING
    | CONNECT_ASSOCIATED
    | UNKNOWN

  /** The enumerator's name, used to state "maps to the same-named state". */
  function ConnectionStateName(s: ConnectionState): string
  {
    match s
    case CONNECT_CONNECTING => "CONNECT_CONNECTING"
    case CONNECT_AP_CONNECTED => "CONNECT_AP_CONNECTED"
    case CONNECT_CHECK_PORTAL => "CONNECT_CHECK_PORTAL"
    case CONNECT_NETWORK_ENABLED => "CONNECT_NETWORK_ENABLED"
    case CONNECT_NETWORK_DISABLED => "CONNECT_NETWORK_DISABLED"
    case DISCONNECT_DISCONNECTING => "DISCONNECT_DISCONNECTING"
    case DISCONNECT_DISCONNECT_FAILED => "DISCONNECT_DISCONNECT_FAILED"
    case DISCONNECT_DISCONNECTED => "DISCONNECT_DISCONNECTED"
    case CONNECT_PASSWORD_WRONG => "CONNECT_PASSWORD_WRONG"
    case CONNECT_CONNECTING_TIMEOUT => "CONNECT_CONNECTING_TIMEOUT"
    case CONNECT_OBTAINING_IP => "CONNECT_OBTAINING_IP"
    case CONNECT_OBTAINING_IP_FAILED => "CONNECT_OBTAINING_IP_FAILED"
    case CONNECT_ASSOCIATING => "CONNECT_ASSOCIATING"
    case CONNECT_ASSOCIATED => "CONNECT_ASSOCIATED"
    case UNKNOWN => "UNKNOWN"
  }

  /** The C++ enumerator value: declaration order, starting at 0. */
  function StateCode(s: ConnectionState): int
  {
    match s
    case CONNECT_CONNECTING => 0
    case CONNECT_AP_CONNECTED => 1
    case CONNECT_CHECK_PORTAL => 2
    case CONNECT_NETWORK_ENABLED => 3
    case CONNECT_NETWORK_DISABLED => 4
    case DISCONNECT_DISCONNECTING => 5
    case DISCONNECT_DISCONNECT_FAILED => 6
    case DISCONNECT_DISCONNECTED => 7
    case CONNECT_PASSWORD_WRONG => 8
    case CONNECT_CONNECTING_TIMEOUT => 9
    case CONNECT_OBTAINING_IP => 10
    case CONNECT_OBTAINING_IP_FAILED => 11
    case CONNECT_ASSOCIATING => 12
    case CONNECT_ASSOCIATED => 13
    case UNKNOWN => 14
  }
}
