/**
 * The Windows-container service (`JackBridgeServer` in jack-bridge) as functions of the globals
 * `jack_client` / `jack_running`, the server's answers, the request text and the timestamp. Unlike the local
 * service it keeps no manager: every handler starts with `checkJackConnection`, a probe that opens and
 * activates a client of its own when there is none.
 */
module WindowsService {
  import opened Wrappers
  import opened Text
  import opened Json
  import opened JackEngine
  import opened Http
  import LocalManager

  const ProbeClientName: string := "jack-bridge-health"
  const NoPortsError: string := "No ports found"

  // ---------------------------------------------------------------------------------------------
  // checkJackConnection

  /**
   * `checkJackConnection`: open and activate a client when there is none (closing it again if activation
   * fails), then report whether the sample rate is positive. The result is stored in the running flag on
   * every path.
   */
  function Check(s: Session, e: Engine): (r: Step<bool>)
    ensures r.session.running == r.value
    ensures r.value <==> (s.client.Some? || (e.openResult.Some? && e.activateResult == 0)) && e.sampleRate > 0
    ensures r.value ==> r.session.client.Some?
    ensures s.client.Some? ==> r.session.client == s.client && r.session.calls == s.calls
  {
    if s.client.None? && e.openResult.None? then
      Step(Session(None, false, s.calls + [Open(ProbeClientName)]), false)
    else if s.client.None? && e.activateResult != 0 then
      Step(Session(None, false, s.calls + [Open(ProbeClientName), Activate, Close]), false)
    else
      var held := if s.client.None? then Session(e.openResult, s.running, s.calls + [Open(ProbeClientName), Activate]) else s;
      Step(held.(running := e.sampleRate > 0), e.sampleRate > 0)
  }

  /** The probe opens a client only when there is none, and the first thing it does then is open one. */
  lemma CheckOpensLazily(s: Session, e: Engine)
    ensures s.client.Some? ==> Check(s, e).session.calls == s.calls
    ensures s.client.None? ==> |Check(s, e).session.calls| > |s.calls| && Check(s, e).session.calls[|s.calls|] == Open(ProbeClientName)
    ensures s.client.None? && Check(s, e).session.client.Some? ==>
      Check(s, e).session.client == e.openResult && Extends(s, Check(s, e).session, [Open(ProbeClientName), Activate])
  {
  }

  /** When opening or activating fails, no client is left behind, and one that was opened has been closed. */
  lemma CheckLeavesNoHalfOpenClient(s: Session, e: Engine)
    requires s.client.None? && (e.openResult.None? || e.activateResult != 0)
    ensures !Check(s, e).value && Check(s, e).session.client.None? && !Check(s, e).session.running
    ensures e.openResult.Some? ==> Extends(s, Check(s, e).session, [Open(ProbeClientName), Activate, Close])
  {
  }

  /** A probe that finds the sample rate at zero reports failure but keeps the client it holds. */
  lemma FailedCheckKeepsClient(s: Session, e: Engine)
    requires e.sampleRate == 0 && (s.client.Some? || (e.openResult.Some? && e.activateResult == 0))
    ensures !Check(s, e).value && Check(s, e).session.client.Some? && !Check(s, e).session.running
  {
  }

  /** With a client in hand, the Windows probe takes exactly the step the local manager's `isRunning` takes. */
  lemma CheckWithClientIsLocalProbe(s: Session, e: Engine)
    requires s.client.Some?
    ensures Check(s, e) == LocalManager.IsRunning(s, e)
  {
  }

  /** After any probe the running flag is raised only while a client is held; a second probe repeats the first. */
  lemma CheckKeepsConsistent(s: Session, e: Engine)
    ensures Consistent(Check(s, e).session)
    ensures Check(s, e).value ==> Check(Check(s, e).session, e) == Check(s, e)
  {
  }

  // ---------------------------------------------------------------------------------------------
  // Query handlers

  /** `getHealthStatus`. */
  function HealthFields(ok: bool, ts: string): seq<Field> {
    [Field("status", Str(if ok then "healthy" else "unhealthy")),
     Field("service", Str("jack-bridge-windows")),
     Field("version", Str("1.0.0")),
     Field("jack_running", Bool(ok)),
     Field("container", Str("windows")),
     Field("api", Str("native")),
     TimestampField(ts)]
  }

  function HealthBody(s: Session, e: Engine, ts: string): (r: Step<string>)
    ensures r.session == Check(s, e).session
    ensures r.value == Object(HealthFields(Check(s, e).value, ts))
  {
    var probe := Check(s, e);
    Step(probe.session, Object(HealthFields(probe.value, ts)))
  }

  /** `getJackStatus`: the sample rate and buffer size are written only when the probe passed and a client is held. */
  function StatusFields(withInfo: bool, ok: bool, e: Engine, ts: string): seq<Field> {
    [Field("success", Bool(ok)), Field("jack_running", Bool(ok)), MethodField(), Field("container", Str("windows"))] +
    (if withInfo then [Field("sample_rate", Num(e.sampleRate)), Field("buffer_size", Num(e.bufferSize))] else []) +
    [TimestampField(ts)]
  }

  function StatusBody(s: Session, e: Engine, ts: string): (r: Step<string>)
    ensures r.session == Check(s, e).session
  {
    var probe := Check(s, e);
    Step(probe.session, Object(StatusFields(probe.value && probe.session.client.Some?, probe.value, e, ts)))
  }

  /** The `jack_client` test beside `jack_ok` never matters: the status includes the server's numbers exactly when the probe passed. */
  lemma StatusShowsInfoWhenRunning(s: Session, e: Engine, ts: string)
    ensures var ok := Check(s, e).value;
      StatusBody(s, e, ts).value == Object(StatusFields(ok, ok, e, ts))
    ensures Lookup(StatusFields(Check(s, e).value, Check(s, e).value, e, ts), "sample_rate").Some? <==> Check(s, e).value
  {
    var ok := Check(s, e).value;
    var fs := StatusFields(ok, ok, e, ts);
    if ok {
      assert fs[4] == Field("sample_rate", Num(e.sampleRate));
    } else {
      assert forall i :: 0 <= i < |fs| ==> fs[i].key != "sample_rate";
    }
  }

  /** `getJackPorts`: a failed probe, then a NULL port list, are reported as errors. */
  function PortsBody(s: Session, e: Engine, ts: string): (r: Step<string>)
    ensures r.session == Check(s, e).session
    ensures !Check(s, e).value ==> r.value == ErrorBody(NotRunningError)
    ensures Check(s, e).value && e.allPorts.None? ==> r.value == ErrorBody(NoPortsError)
    ensures Check(s, e).value && e.allPorts.Some? ==> r.value == Object(PortsFields(e.allPorts.value, ts))
  {
    var probe := Check(s, e);
    if !probe.value then Step(probe.session, ErrorBody(NotRunningError))
    else
      match e.allPorts
      case None => Step(probe.session, ErrorBody(NoPortsError))
      case Some(ports) => Step(probe.session, Object(PortsFields(ports, ts)))
  }

  /** `{"success":true,"connections":[],"count":0}`: no output port list, no timestamp. */
  function NoConnectionsFields(): seq<Field> {
    [Field("success", Bool(true)), Field("connections", Raw("[]")), Field("count", Num(0))]
  }

  /** `getJackConnections`: a NULL output port list is a success with no connections. */
  function ConnectionsBody(s: Session, e: Engine, ts: string): (r: Step<string>)
    ensures r.session == Check(s, e).session
    ensures !Check(s, e).value ==> r.value == ErrorBody(NotRunningError)
    ensures Check(s, e).value && e.outputPorts.None? ==> r.value == Object(NoConnectionsFields())
    ensures Check(s, e).value && e.outputPorts.Some? ==> r.value == Object(ConnectionsFields(EdgesOf(e.outputPorts.value, e), ts))
  {
    var probe := Check(s, e);
    if !probe.value then Step(probe.session, ErrorBody(NotRunningError))
    else
      match e.outputPorts
      case None => Step(probe.session, Object(NoConnectionsFields()))
      case Some(outputs) => Step(probe.session, Object(ConnectionsFields(EdgesOf(outputs, e), ts)))
  }

  /** Without a port list the connections answer is still a success, with an empty array and a zero count. */
  lemma NoConnectionsIsEmptySuccess()
    ensures Lookup(NoConnectionsFields(), "success") == Some(Bool(true))
    ensures Lookup(NoConnectionsFields(), "connections") == Some(Raw(Array([])))
    ensures Lookup(NoConnectionsFields(), "count") == Some(Num(0))
  {
    assert Array([]) == "[]";
  }

  // ---------------------------------------------------------------------------------------------
  // Command handlers

  /** `handleConnect`'s answer to the result code of `jack_connect`. */
  function ConnectFields(result: int, ts: string): seq<Field> {
    var success := result == 0 || result == EEXIST;
    [Field("success", Bool(success)),
     Field("already_connected", Bool(result == EEXIST)),
     Field("message", Str(if success then "Connected" else "Failed")),
     MethodField(),
     TimestampField(ts)]
  }

  /** Success exactly when the code is 0 or EEXIST; already connected exactly when it is EEXIST, which is itself a success. */
  lemma ConnectOutcome(result: int, ts: string)
    ensures Lookup(ConnectFields(result, ts), "success") == Some(Bool(result == 0 || result == EEXIST))
    ensures Lookup(ConnectFields(result, ts), "already_connected") == Some(Bool(result == EEXIST))
    ensures Lookup(ConnectFields(result, ts), "message") == Some(Str(if result == 0 || result == EEXIST then "Connected" else "Failed"))
  {
    var fs := ConnectFields(result, ts);
    assert "success" != "message" by {
      assert "success"[0] != "message"[0];
    }
    assert Lookup(fs[2..], "message") == Some(fs[2].value);
    assert fs[1..][1..] == fs[2..];
    assert Lookup(fs[1..], "message") == Lookup(fs[2..], "message");
  }

  /** A disconnect succeeds only on 0, and its answer has no `already_connected` member for "was not connected". */
  lemma DisconnectOutcome(result: int, ts: string)
    ensures Lookup(CommandFields(result == 0, "Disconnected", ts), "success") == Some(Bool(result == 0))
    ensures Lookup(CommandFields(result == 0, "Disconnected", ts), "already_connected") == None
  {
  }

  /**
   * `handleConnect`: the body is checked first and a bad one is answered without touching anything; then
   * the probe runs (and may open a client); the server is asked to connect only when it passed.
   */
  function HandleConnect(s: Session, e: Engine, request: string, ts: string): (r: Step<string>)
    ensures ParseEdgeRequest(request).Failure? ==> r == Step(s, ErrorBody(ParseEdgeRequest(request).error))
    ensures ParseEdgeRequest(request).Success? && !Check(s, e).value ==> r == Step(Check(s, e).session, ErrorBody(NotRunningError))
    ensures ParseEdgeRequest(request).Success? && Check(s, e).value ==>
      var edge := ParseEdgeRequest(request).value;
      r.session == Check(s, e).session.(calls := Check(s, e).session.calls + [Connect(edge)]) &&
      r.value == Object(ConnectFields(e.connectResult(edge), ts))
  {
    match ParseEdgeRequest(request)
    case Failure(message) => Step(s, ErrorBody(message))
    case Success(edge) =>
      var probe := Check(s, e);
      if !probe.value then Step(probe.session, ErrorBody(NotRunningError))
      else Step(probe.session.(calls := probe.session.calls + [Connect(edge)]), Object(ConnectFields(e.connectResult(edge), ts)))
  }

  /** `handleDisconnect`: the same checks in the same order, then one disconnect. */
  function HandleDisconnect(s: Session, e: Engine, request: string, ts: string): (r: Step<string>)
    ensures ParseEdgeRequest(request).Failure? ==> r == Step(s, ErrorBody(ParseEdgeRequest(request).error))
    ensures ParseEdgeRequest(request).Success? && !Check(s, e).value ==> r == Step(Check(s, e).session, ErrorBody(NotRunningError))
    ensures ParseEdgeRequest(request).Success? && Check(s, e).value ==>
      var edge := ParseEdgeRequest(request).value;
      r.session == Check(s, e).session.(calls := Check(s, e).session.calls + [Disconnect(edge)]) &&
      r.value == Object(CommandFields(e.disconnectResult(edge) == 0, "Disconnected", ts))
  {
    match ParseEdgeRequest(request)
    case Failure(message) => Step(s, ErrorBody(message))
    case Success(edge) =>
      var probe := Check(s, e);
      if !probe.value then Step(probe.session, ErrorBody(NotRunningError))
      else
        var result := e.disconnectResult(edge);
        Step(probe.session.(calls := probe.session.calls + [Disconnect(edge)]), Object(CommandFields(result == 0, "Disconnected", ts)))
  }

  /** `{"success":true,"message":"No connections to clear","count":0}`: no output port list, no timestamp. */
  function NothingToClearFields(): seq<Field> {
    [Field("success", Bool(true)), Field("message", Str("No connections to clear")), Field("count", Num(0))]
  }

  /** `handleClearAll`: one disconnect per listed edge, counting those the server reports as done. */
  function HandleClearAll(s: Session, e: Engine, ts: string): (r: Step<string>)
    ensures !Check(s, e).value ==> r == Step(Check(s, e).session, ErrorBody(NotRunningError))
    ensures Check(s, e).value && e.outputPorts.None? ==> r == Step(Check(s, e).session, Object(NothingToClearFields()))
    ensures Check(s, e).value && e.outputPorts.Some? ==>
      var edges := EdgesOf(e.outputPorts.value, e);
      r.session == Check(s, e).session.(calls := Check(s, e).session.calls + DisconnectCalls(edges)) &&
      r.value == Object(ClearFields(Cleared(edges, e), ts))
  {
    var probe := Check(s, e);
    if !probe.value then Step(probe.session, ErrorBody(NotRunningError))
    else
      match e.outputPorts
      case None => Step(probe.session, Object(NothingToClearFields()))
      case Some(outputs) =>
        var edges := EdgesOf(outputs, e);
        Step(probe.session.(calls := probe.session.calls + DisconnectCalls(edges)), Object(ClearFields(Cleared(edges, e), ts)))
  }

  /**
   * Once the probe has passed, clearing reports success; its count is at most the number of listed edges,
   * and reaches it exactly when every disconnect succeeds.
   */
  lemma ClearAllOutcome(e: Engine, outputs: seq<PortName>, ts: string)
    ensures Lookup(NothingToClearFields(), "success") == Some(Bool(true))
    ensures Lookup(NothingToClearFields(), "count") == Some(Num(0))
    ensures Lookup(ClearFields(Cleared(EdgesOf(outputs, e), e), ts), "success") == Some(Bool(true))
    ensures Cleared(EdgesOf(outputs, e), e) <= |EdgesOf(outputs, e)|
    ensures Cleared(EdgesOf(outputs, e), e) == |EdgesOf(outputs, e)| <==>
      forall j :: 0 <= j < |EdgesOf(outputs, e)| ==> e.disconnectResult(EdgesOf(outputs, e)[j]) == 0
  {
    ClearedBound(EdgesOf(outputs, e), e);
  }

  // ---------------------------------------------------------------------------------------------
  // processRequest and handleRequest

  /**
   * The body `processRequest` frames, by the same if-chain as the local service: a preflight gets an empty
   * body and an unknown route its path back, both without touching anything.
   */
  function ResponseBody(s: Session, e: Engine, request: string, ts: string): (r: Step<string>)
    ensures var line := Tokens(request); line.httpMethod == "OPTIONS" ==> r == Step(s, "")
    ensures var line := Tokens(request); Route(line.httpMethod, line.path) == NotFound ==> r == Step(s, NotFoundBody(line.path))
  {
    var line := Tokens(request);
    match Route(line.httpMethod, line.path)
    case Preflight => Step(s, "")
    case Health => HealthBody(s, e, ts)
    case Status => StatusBody(s, e, ts)
    case Ports => PortsBody(s, e, ts)
    case Connections => ConnectionsBody(s, e, ts)
    case PostConnect => HandleConnect(s, e, request, ts)
    case PostDisconnect => HandleDisconnect(s, e, request, ts)
    case PostClear => HandleClearAll(s, e, ts)
    case NotFound => Step(s, NotFoundBody(line.path))
  }

  /** Each of the seven served routes is answered by its own handler. */
  lemma Dispatch(s: Session, e: Engine, request: string, ts: string)
    ensures Route(Tokens(request).httpMethod, Tokens(request).path) == Health ==> ResponseBody(s, e, request, ts) == HealthBody(s, e, ts)
    ensures Route(Tokens(request).httpMethod, Tokens(request).path) == Status ==> ResponseBody(s, e, request, ts) == StatusBody(s, e, ts)
    ensures Route(Tokens(request).httpMethod, Tokens(request).path) == Ports ==> ResponseBody(s, e, request, ts) == PortsBody(s, e, ts)
    ensures Route(Tokens(request).httpMethod, Tokens(request).path) == Connections ==>
      ResponseBody(s, e, request, ts) == ConnectionsBody(s, e, ts)
    ensures Route(Tokens(request).httpMethod, Tokens(request).path) == PostConnect ==>
      ResponseBody(s, e, request, ts) == HandleConnect(s, e, request, ts)
    ensures Route(Tokens(request).httpMethod, Tokens(request).path) == PostDisconnect ==>
      ResponseBody(s, e, request, ts) == HandleDisconnect(s, e, request, ts)
    ensures Route(Tokens(request).httpMethod, Tokens(request).path) == PostClear ==>
      ResponseBody(s, e, request, ts) == HandleClearAll(s, e, ts)
  {
  }

  /**
   * A query can at most open the probe's client: beyond what `checkJackConnection` does, nothing is asked of
   * the server unless the route is a command.
   */
  lemma QueriesOnlyProbe(s: Session, e: Engine, request: string, ts: string)
    requires var line := Tokens(request); var route := Route(line.httpMethod, line.path);
      route == Health || route == Status || route == Ports || route == Connections
    ensures ResponseBody(s, e, request, ts).session == Check(s, e).session
  {
  }

  /** `processRequest`: the routed body in the always-200 frame. */
  function ProcessRequest(s: Session, e: Engine, request: string, ts: string): (r: Step<string>)
    ensures r.session == ResponseBody(s, e, request, ts).session
    ensures BodyOf(r.value) == Some(ResponseBody(s, e, request, ts).value)
    ensures StartsWith(r.value, StatusLine + Crlf)
    ensures HeadOf(r.value) == Some(HeaderBlock(|ResponseBody(s, e, request, ts).value|))
  {
    var b := ResponseBody(s, e, request, ts);
    FrameReadsBack(b.value);
    FrameStartsWithStatus(b.value);
    Step(b.session, Frame(b.value))
  }

  /** `handleRequest`: a failed or empty read is closed without a response. */
  function HandleRequest(s: Session, e: Engine, incoming: Option<string>, ts: string): (r: Step<Option<string>>)
    ensures ReadRequest(incoming).None? ==> r == Step(s, None)
    ensures ReadRequest(incoming).Some? ==>
      var p := ProcessRequest(s, e, ReadRequest(incoming).value, ts);
      r == Step(p.session, Some(p.value))
  {
    match ReadRequest(incoming)
    case None => Step(s, None)
    case Some(request) =>
      var p := ProcessRequest(s, e, request, ts);
      Step(p.session, Some(p.value))
  }

  /**
   * The clean-up at the end of `main`: close the client if there is one. Unlike the local `shutdown` it
   * leaves `jack_running` as it was, so a running flag can outlive the client it was about.
   */
  function Cleanup(s: Session): (r: Session)
    ensures r.client.None? && r.running == s.running
    ensures s.client.Some? ==> r.calls == s.calls + [Close]
    ensures s.client.None? ==> r == s
  {
    if s.client.Some? then Session(None, s.running, s.calls + [Close]) else s
  }

  /** From a healthy state, the Windows clean-up leaves the flag raised with no client; the local `shutdown` does not. */
  lemma CleanupMayLeaveRunningFlag(s: Session)
    requires s.client.Some? && s.running
    ensures !Consistent(Cleanup(s))
    ensures Consistent(LocalManager.Shutdown(s))
  {
  }

  /** The command handlers keep the running flag raised only while a client is held. */
  lemma CommandsKeepConsistent(s: Session, e: Engine, request: string, ts: string)
    requires Consistent(s)
    ensures Consistent(HandleConnect(s, e, request, ts).session)
    ensures Consistent(HandleDisconnect(s, e, request, ts).session)
    ensures Consistent(HandleClearAll(s, e, ts).session)
  {
    CheckKeepsConsistent(s, e);
    if ParseEdgeRequest(request).Success? {
      assert HandleConnect(s, e, request, ts).session.client == Check(s, e).session.client;
      assert HandleDisconnect(s, e, request, ts).session.client == Check(s, e).session.client;
    }
  }

  /** Every path through a request leaves the running flag raised only while a client is held. */
  lemma RequestKeepsConsistent(s: Session, e: Engine, request: string, ts: string)
    requires Consistent(s)
    ensures Consistent(ResponseBody(s, e, request, ts).session)
  {
    CheckKeepsConsistent(s, e);
    CommandsKeepConsistent(s, e, request, ts);
    var line := Tokens(request);
    match Route(line.httpMethod, line.path)
    case Preflight =>
    case Health =>
      assert ResponseBody(s, e, request, ts) == HealthBody(s, e, ts);
    case Status =>
      assert ResponseBody(s, e, request, ts) == StatusBody(s, e, ts);
    case Ports =>
      assert ResponseBody(s, e, request, ts) == PortsBody(s, e, ts);
    case Connections =>
      assert ResponseBody(s, e, request, ts) == ConnectionsBody(s, e, ts);
    case PostConnect =>
      assert ResponseBody(s, e, request, ts) == HandleConnect(s, e, request, ts);
    case PostDisconnect =>
      assert ResponseBody(s, e, request, ts) == HandleDisconnect(s, e, request, ts);
    case PostClear =>
      assert ResponseBody(s, e, request, ts) == HandleClearAll(s, e, ts);
    case NotFound =>
  }
}
