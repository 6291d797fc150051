/**
 * The shared record types of the containerised bridge: ports and connections as the bridge reports them,
 * the four configuration sections with their member-initialiser defaults, the response records, the error
 * codes and the exception type, and the named default constants. A `time_point` taken from the clock by a
 * constructor is a parameter `now`; a default-constructed one is the clock's epoch.
 */
module Types {
  import opened Wrappers
  import opened Text

  /** A C++ `int`: 32 bits, two's complement. */
  type CInt = x: int | IntMin <= x <= IntMax

  /** A `std::chrono::system_clock::time_point`, as a count of ticks since the epoch. */
  type Instant = int

  const Epoch: Instant := 0

  // ---------------------------------------------------------------------------------------------
  // jack_constants

  const DefaultApiPort: CInt := 6666
  const DefaultWsPort: CInt := 6667
  const DefaultTimeoutMs: CInt := 10000
  const DefaultReconnectIntervalMs: CInt := 5000
  const DefaultMonitorIntervalMs: CInt := 1000
  const DefaultJackToolsPath: string := "C:/PROGRA~1/JACK2/tools"
  const DefaultWindowsHost: string := "host.docker.internal"
  const DefaultLogLevel: string := "info"

  // ---------------------------------------------------------------------------------------------
  // Ports, connections, status

  datatype JackConnection = JackConnection(from: string, to: string, timestamp: Instant)

  /** `JackConnection() = default`: empty names, the epoch. */
  function DefaultConnection(): (c: JackConnection)
    ensures c.from == "" && c.to == "" && c.timestamp == Epoch
  {
    JackConnection("", "", Epoch)
  }

  /** `JackConnection(f, t)`: the two names, stamped with the current time. */
  function NewConnection(f: string, t: string, now: Instant): (c: JackConnection)
    ensures c.from == f && c.to == t && c.timestamp == now
  {
    JackConnection(f, t, now)
  }

  datatype JackPort = JackPort(name: string, portType: string, direction: string, client: string, isActive: bool, lastSeen: Instant)

  /** `JackPort()`: an inactive port with empty names, last seen now. */
  function DefaultPort(now: Instant): (p: JackPort)
    ensures !p.isActive && p.name == "" && p.portType == "" && p.direction == "" && p.client == "" && p.lastSeen == now
  {
    JackPort("", "", "", "", false, now)
  }

  /** `JackPort(n, t, d)`: the name, type and direction given, active, with no client name. */
  function NewPort(n: string, t: string, d: string, now: Instant): (p: JackPort)
    ensures p.isActive && p.name == n && p.portType == t && p.direction == d && p.client == "" && p.lastSeen == now
  {
    JackPort(n, t, d, "", true, now)
  }

  datatype JackStatus = JackStatus(serverRunning: bool, ports: seq<JackPort>, connections: seq<JackConnection>, lastUpdate: Instant, errorMessage: string)

  /** `JackStatus()`: the server not running, nothing listed, no error. */
  function DefaultStatus(now: Instant): (s: JackStatus)
    ensures !s.serverRunning && s.ports == [] && s.connections == [] && s.errorMessage == "" && s.lastUpdate == now
  {
    JackStatus(false, [], [], now, "")
  }

  // ---------------------------------------------------------------------------------------------
  // WebSocket messages

  datatype WebSocketMessageType = StatusUpdate | ConnectionChange | PortChange | ErrorMessage | Ping | Pong

  datatype WebSocketMessage = WebSocketMessage(messageType: WebSocketMessageType, data: string, timestamp: Instant)

  function NewWebSocketMessage(t: WebSocketMessageType, d: string, now: Instant): (m: WebSocketMessage)
    ensures m.messageType == t && m.data == d && m.timestamp == now
  {
    WebSocketMessage(t, d, now)
  }

  // ---------------------------------------------------------------------------------------------
  // Configuration sections

  datatype ServerConfig = ServerConfig(apiPort: CInt, websocketPort: CInt, host: string, maxConnections: CInt, timeoutSeconds: CInt)

  datatype JackConfig = JackConfig(windowsHost: string, toolsPath: string, timeoutMs: CInt, reconnectIntervalMs: CInt,
                                   monitorIntervalMs: CInt, autoReconnect: bool)

  datatype LoggingConfig = LoggingConfig(level: string, fileEnabled: bool, filePath: string, consoleEnabled: bool,
                                         maxFileSizeMb: CInt, maxFiles: CInt)

  datatype FeatureConfig = FeatureConfig(autoReconnect: bool, connectionMonitoring: bool, statePersistence: bool,
                                         websocketUpdates: bool, healthMonitoring: bool)

  /** The member initialisers of `ServerConfig`. */
  function DefaultServerConfig(): ServerConfig {
    ServerConfig(6666, 6667, "0.0.0.0", 100, 30)
  }

  function DefaultJackConfig(): JackConfig {
    JackConfig("host.docker.internal", "C:/PROGRA~1/JACK2/tools", 10000, 5000, 1000, true)
  }

  function DefaultLoggingConfig(): LoggingConfig {
    LoggingConfig("info", true, "/app/logs/jack-bridge.log", true, 10, 5)
  }

  function DefaultFeatureConfig(): FeatureConfig {
    FeatureConfig(true, true, true, true, true)
  }

  /** The section defaults agree with the named constants. */
  lemma DefaultsAreTheConstants()
    ensures DefaultServerConfig().apiPort == DefaultApiPort
    ensures DefaultServerConfig().websocketPort == DefaultWsPort
    ensures DefaultJackConfig().timeoutMs == DefaultTimeoutMs
    ensures DefaultJackConfig().reconnectIntervalMs == DefaultReconnectIntervalMs
    ensures DefaultJackConfig().monitorIntervalMs == DefaultMonitorIntervalMs
    ensures DefaultJackConfig().toolsPath == DefaultJackToolsPath
    ensures DefaultJackConfig().windowsHost == DefaultWindowsHost
    ensures DefaultLoggingConfig().level == DefaultLogLevel
  {
  }

  // ---------------------------------------------------------------------------------------------
  // Responses

  datatype ApiResponse = ApiResponse(success: bool, message: string, error: string, timestamp: Instant)

  /** `ApiResponse(s, m, e)`, stamped now. */
  function NewApiResponse(s: bool, m: string, e: string, now: Instant): (r: ApiResponse)
    ensures r.success == s && r.message == m && r.error == e && r.timestamp == now
  {
    ApiResponse(s, m, e, now)
  }

  /** `ApiResponse()`: the default arguments, a success with no message and no error. */
  function DefaultApiResponse(now: Instant): (r: ApiResponse)
    ensures r.success && r.message == "" && r.error == "" && r.timestamp == now
  {
    NewApiResponse(true, "", "", now)
  }

  datatype ConnectionResponse = ConnectionResponse(base: ApiResponse, methodName: string, alreadyConnected: bool)

  /** `ConnectionResponse(s, m, method_name)`: no error, not already connected. */
  function NewConnectionResponse(s: bool, m: string, methodName: string, now: Instant): (r: ConnectionResponse)
    ensures r.base.success == s && r.base.message == m && r.base.error == "" && r.methodName == methodName
    ensures !r.alreadyConnected
  {
    ConnectionResponse(NewApiResponse(s, m, "", now), methodName, false)
  }

  datatype StatusResponse = StatusResponse(base: ApiResponse, jackStatus: JackStatus, bridgeHealthy: bool)

  /** `StatusResponse(s, status)`: the status as given, the bridge reported healthy. */
  function NewStatusResponse(s: bool, status: JackStatus, now: Instant): (r: StatusResponse)
    ensures r.base == DefaultApiResponse(now).(success := s) && r.jackStatus == status && r.bridgeHealthy
  {
    StatusResponse(NewApiResponse(s, "", "", now), status, true)
  }

  // ---------------------------------------------------------------------------------------------
  // Errors

  datatype JackErrorCode =
    | Success | ServerNotRunning | ConnectionFailed | PortNotFound | AlreadyConnected
    | NotConnected | Timeout | InvalidParameter | PermissionDenied | UnknownError

  /** The enumerator values. */
  function CodeValue(c: JackErrorCode): (v: int)
    ensures 0 <= v <= 8 || v == 999
  {
    match c
    case Success => 0
    case ServerNotRunning => 1
    case ConnectionFailed => 2
    case PortNotFound => 3
    case AlreadyConnected => 4
    case NotConnected => 5
    case Timeout => 6
    case InvalidParameter => 7
    case PermissionDenied => 8
    case UnknownError => 999
  }

  /** The enumerator with a given value, if there is one. */
  function CodeOf(v: int): (r: Option<JackErrorCode>)
    ensures r.Some? ==> CodeValue(r.value) == v
    ensures r.Some? <==> 0 <= v <= 8 || v == 999
  {
    if v == 0 then Some(JackErrorCode.Success)
    else if v == 1 then Some(ServerNotRunning)
    else if v == 2 then Some(ConnectionFailed)
    else if v == 3 then Some(PortNotFound)
    else if v == 4 then Some(AlreadyConnected)
    else if v == 5 then Some(NotConnected)
    else if v == 6 then Some(Timeout)
    else if v == 7 then Some(InvalidParameter)
    else if v == 8 then Some(PermissionDenied)
    else if v == 999 then Some(UnknownError)
    else None
  }

  /** Every enumerator has a value of its own, and reading the value back gives the enumerator. */
  lemma CodeValuesDistinct(a: JackErrorCode, b: JackErrorCode)
    ensures CodeOf(CodeValue(a)) == Some(a)
    ensures CodeValue(a) == CodeValue(b) <==> a == b
  {
    assert CodeOf(CodeValue(b)) == Some(b);
  }

  datatype JackBridgeException = JackBridgeException(message: string, errorCode: JackErrorCode)

  /** `JackBridgeException(message, code = UNKNOWN_ERROR)`. */
  function NewException(message: string, code: Option<JackErrorCode>): (x: JackBridgeException)
    ensures x.message == message
    ensures x.errorCode == if code.Some? then code.value else UnknownError
  {
    JackBridgeException(message, code.GetOr(UnknownError))
  }

  /** `what()`: the message the exception was built with. */
  function What(x: JackBridgeException): string {
    x.message
  }

  lemma WhatIsTheMessage(message: string, code: Option<JackErrorCode>)
    ensures What(NewException(message, code)) == message
    ensures code.None? ==> NewException(message, code).errorCode == UnknownError
  {
  }
}
