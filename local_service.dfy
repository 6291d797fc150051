/**
 * The HTTP side of the local Windows service (`HttpServer` in jack-bridge-local) and its watchdog, as
 * functions of the session state, the server's answers, the request text and the timestamp the handler
 * would read from the clock. Each handler probes the manager first; only the command handlers go on to
 * change the server.
 */
module LocalService {
  import opened Wrappers
  import opened Text
  import opened Json
  import opened JackEngine
  import opened Http
  import opened LocalManager

  // ---------------------------------------------------------------------------------------------
  // Query handlers

  /** `getHealthStatus`. */
  function HealthFields(ok: bool, ts: string): seq<Field> {
    [Field("status", Str(if ok then "healthy" else "unhealthy")),
     Field("service", Str("jack-bridge-local")),
     Field("version", Str("1.0.0")),
     Field("jack_running", Bool(ok)),
     Field("platform", Str("windows")),
     Field("api", Str("native")),
     TimestampField(ts)]
  }

  function HealthBody(s: Session, e: Engine, ts: string): (r: Step<string>)
    ensures r.session == IsRunning(s, e).session
    ensures r.value == Object(HealthFields(IsRunning(s, e).value, ts))
  {
    var probe := IsRunning(s, e);
    Step(probe.session, Object(HealthFields(probe.value, ts)))
  }

  function StatusHead(ok: bool): seq<Field> {
    [Field("success", Bool(ok)), Field("jack_running", Bool(ok)), MethodField()]
  }

  /** `info.substr(1, info.length() - 2)`: the text between the outer braces. */
  function Unbrace(info: string): (r: string)
    requires |info| >= 2
    ensures |r| == |info| - 2 && info == [info[0]] + r + [info[|info| - 1]]
  {
    info[1..|info| - 1]
  }

  /**
   * `getJackStatus`: the head fields, then, when the probe passed, the members of `getJackInfo` spliced in
   * after a comma, then the timestamp.
   */
  function StatusText(head: seq<Field>, ok: bool, info: string, tail: seq<Field>): string
    requires |info| >= 2
  {
    "{" + Inner(head) + (if ok then "," + Unbrace(info) else "") + "," + Inner(tail) + "}"
  }

  function StatusBody(s: Session, e: Engine, ts: string): (r: Step<string>)
    ensures r.session == IsRunning(s, e).session
  {
    var probe := IsRunning(s, e);
    var info := JackInfo(probe.session, e);
    Step(probe.session, StatusText(StatusHead(probe.value), probe.value, info, [TimestampField(ts)]))
  }

  /** The fields of the status answer: the probe passed exactly when the server's info is included. */
  function StatusFields(ok: bool, e: Engine, ts: string): seq<Field> {
    StatusHead(ok) + (if ok then InfoFields(e) else []) + [TimestampField(ts)]
  }

  /** Splicing the members of an object between two others gives the object of all their fields. */
  lemma SpliceText(a: seq<Field>, b: seq<Field>, c: seq<Field>)
    requires |a| > 0 && |b| > 0 && |c| > 0
    ensures StatusText(a, true, Object(b), c) == Object(a + b + c)
  {
    var x, y, z := Inner(a), Inner(b), Inner(c);
    assert Unbrace(Object(b)) == y by {
      StripBraces(b);
    }
    assert StatusText(a, true, Object(b), c) == "{" + x + ("," + y) + "," + z + "}";
    Splice(a, b, c);
    Regroup3(x, y, z);
  }

  lemma Regroup3(x: string, y: string, z: string)
    ensures "{" + x + ("," + y) + "," + z + "}" == "{" + x + "," + y + "," + z + "}"
  {
  }

  /** Without the splice, the head and tail members form the object of their fields. */
  lemma NoSpliceText(a: seq<Field>, info: string, c: seq<Field>)
    requires |a| > 0 && |c| > 0 && |info| >= 2
    ensures StatusText(a, false, info, c) == Object(a + c)
  {
    var x, z := Inner(a), Inner(c);
    assert StatusText(a, false, info, c) == "{" + x + "" + "," + z + "}";
    assert Object(a + c) == "{" + (x + "," + z) + "}" by {
      InnerAppend(a, c);
    }
    Regroup2(x, z);
  }

  lemma Regroup2(x: string, z: string)
    ensures "{" + x + "" + "," + z + "}" == "{" + (x + "," + z) + "}"
  {
  }

  /** The spliced text of `getJackStatus` is the object of the head, info and timestamp fields in that order. */
  lemma StatusIsObject(s: Session, e: Engine, ts: string)
    ensures StatusBody(s, e, ts).value == Object(StatusFields(IsRunning(s, e).value, e, ts))
  {
    var probe := IsRunning(s, e);
    var a, b, c := StatusHead(probe.value), InfoFields(e), [TimestampField(ts)];
    if probe.value {
      SpliceText(a, b, c);
    } else {
      NoSpliceText(a, JackInfo(probe.session, e), c);
      assert a + [] + c == a + c;
    }
  }

  function PortsBody(s: Session, e: Engine, ts: string): (r: Step<string>)
    ensures r.session == IsRunning(s, e).session
    ensures !IsRunning(s, e).value ==> r.value == ErrorBody(NotRunningError)
    ensures IsRunning(s, e).value ==> r.value == Object(PortsFields(e.allPorts.GetOr([]), ts))
  {
    var probe := IsRunning(s, e);
    if !probe.value then Step(probe.session, ErrorBody(NotRunningError))
    else Step(probe.session, Object(PortsFields(LocalManager.Ports(probe.session, e), ts)))
  }

  function ConnectionsBody(s: Session, e: Engine, ts: string): (r: Step<string>)
    ensures r.session == IsRunning(s, e).session
    ensures !IsRunning(s, e).value ==> r.value == ErrorBody(NotRunningError)
    ensures IsRunning(s, e).value ==> r.value == Object(ConnectionsFields(EdgesOf(e.outputPorts.GetOr([]), e), ts))
  {
    var probe := IsRunning(s, e);
    if !probe.value then Step(probe.session, ErrorBody(NotRunningError))
    else Step(probe.session, Object(ConnectionsFields(LocalManager.Connections(probe.session, e), ts)))
  }

  // ---------------------------------------------------------------------------------------------
  // Command handlers

  /**
   * `handleConnect`: the body is checked before the probe runs, and the server is asked to connect only
   * once both checks and the probe have passed.
   */
  function HandleConnect(s: Session, e: Engine, request: string, ts: string): (r: Step<string>)
    ensures ParseEdgeRequest(request).Failure? ==> r == Step(s, ErrorBody(ParseEdgeRequest(request).error))
    ensures ParseEdgeRequest(request).Success? && !(s.client.Some? && e.sampleRate > 0) ==>
      r.value == ErrorBody(NotRunningError) && r.session.calls == s.calls && r.session.client == s.client
    ensures ParseEdgeRequest(request).Success? && s.client.Some? && e.sampleRate > 0 ==>
      var edge := ParseEdgeRequest(request).value;
      var done := e.connectResult(edge) == 0 || e.connectResult(edge) == EEXIST;
      r.session == s.(running := true, calls := s.calls + [Connect(edge)]) &&
      r.value == Object(CommandFields(done, "Connected", ts))
  {
    match ParseEdgeRequest(request)
    case Failure(message) => Step(s, ErrorBody(message))
    case Success(edge) =>
      var probe := IsRunning(s, e);
      if !probe.value then Step(probe.session, ErrorBody(NotRunningError))
      else
        var c := ConnectPorts(probe.session, e, edge);
        Step(c.session, Object(CommandFields(c.value, "Connected", ts)))
  }

  /** `handleDisconnect`: the same checks in the same order, then one disconnect. */
  function HandleDisconnect(s: Session, e: Engine, request: string, ts: string): (r: Step<string>)
    ensures ParseEdgeRequest(request).Failure? ==> r == Step(s, ErrorBody(ParseEdgeRequest(request).error))
    ensures ParseEdgeRequest(request).Success? && !(s.client.Some? && e.sampleRate > 0) ==>
      r.value == ErrorBody(NotRunningError) && r.session.calls == s.calls && r.session.client == s.client
    ensures ParseEdgeRequest(request).Success? && s.client.Some? && e.sampleRate > 0 ==>
      var edge := ParseEdgeRequest(request).value;
      r.session == s.(running := true, calls := s.calls + [Disconnect(edge)]) &&
      r.value == Object(CommandFields(e.disconnectResult(edge) == 0, "Disconnected", ts))
  {
    match ParseEdgeRequest(request)
    case Failure(message) => Step(s, ErrorBody(message))
    case Success(edge) =>
      var probe := IsRunning(s, e);
      if !probe.value then Step(probe.session, ErrorBody(NotRunningError))
      else
        var d := DisconnectPorts(probe.session, e, edge);
        Step(d.session, Object(CommandFields(d.value, "Disconnected", ts)))
  }

  /** `handleClearAll`, with the manager's clearing as intended. */
  function HandleClearAll(s: Session, e: Engine, ts: string): (r: Step<string>)
    ensures !(s.client.Some? && e.sampleRate > 0) ==>
      r.value == ErrorBody(NotRunningError) && r.session.calls == s.calls && r.session.client == s.client
    ensures s.client.Some? && e.sampleRate > 0 ==>
      var edges := EdgesOf(e.outputPorts.GetOr([]), e);
      r.session == s.(running := true, calls := s.calls + DisconnectCalls(edges)) &&
      r.value == Object(ClearFields(Cleared(edges, e), ts))
  {
    var probe := IsRunning(s, e);
    if !probe.value then Step(probe.session, ErrorBody(NotRunningError))
    else
      var c := ClearAllConnections(probe.session, e);
      Step(c.session, Object(ClearFields(c.value, ts)))
  }

  /** `handleClearAll` over the manager as written: `None` where the clearing relocks its own mutex. */
  function HandleClearAllAsWritten(s: Session, e: Engine, ts: string): (r: Option<Step<string>>)
    ensures IsRunning(s, e).value ==> r.None?
    ensures !IsRunning(s, e).value ==> r == Some(Step(IsRunning(s, e).session, ErrorBody(NotRunningError)))
  {
    var probe := IsRunning(s, e);
    if !probe.value then Some(Step(probe.session, ErrorBody(NotRunningError)))
    else
      match ClearAllAsWritten(probe.session, e)
      case None => None
      case Some(c) => Some(Step(c.session, Object(ClearFields(c.value, ts))))
  }

  /**
   * As written, a clear request that passes the probe reaches the relock of its own mutex, undefined
   * behaviour modelled as a deadlock: the probe passing means a client is held, and with a client the
   * clearing takes the mutex a second time.
   */
  lemma ClearRequestBlocks(s: Session, e: Engine, ts: string)
    ensures HandleClearAllAsWritten(s, e, ts).None? <==> IsRunning(s, e).value
    ensures !IsRunning(s, e).value ==> HandleClearAllAsWritten(s, e, ts) == Some(HandleClearAll(s, e, ts))
  {
    ClearAllAsWrittenBlocks(IsRunning(s, e).session, e);
  }

  // ---------------------------------------------------------------------------------------------
  // processRequest and handleClient

  /** The command routes, the only ones that can call anything that changes the server. */
  predicate IsCommand(route: Endpoint) {
    route == PostConnect || route == PostDisconnect || route == PostClear
  }

  /**
   * The body `processRequest` frames: the handler the route selects. A preflight gets an empty body and an
   * unknown route its path back, both without touching anything; no query changes the client or calls the
   * server.
   */
  function ResponseBody(s: Session, e: Engine, request: string, ts: string): (r: Step<string>)
    ensures var line := Tokens(request); line.httpMethod == "OPTIONS" ==> r == Step(s, "")
    ensures var line := Tokens(request); Route(line.httpMethod, line.path) == NotFound ==> r == Step(s, NotFoundBody(line.path))
    ensures var line := Tokens(request); !IsCommand(Route(line.httpMethod, line.path)) ==>
      r.session.calls == s.calls && r.session.client == s.client
  {
    var line := Tokens(request);
    match Route(line.httpMethod, line.path)
    case Preflight => Step(s, "")
    case Health => HealthBody(s, e, ts)
    case Status => StatusBody(s, e, ts)
    case Ports => PortsBody(s, e, ts)
    case Connections => ConnectionsBody(s, e, ts)
    case PostConnect => HandleConnect(s, e, request, ts)
    case PostDisconnect => HandleDisconnect(s, e, request, ts)
    case PostClear => HandleClearAll(s, e, ts)
    case NotFound => Step(s, NotFoundBody(line.path))
  }

  /** Each of the seven served routes is answered by its own handler. */
  lemma Dispatch(s: Session, e: Engine, request: string, ts: string)
    ensures Route(Tokens(request).httpMethod, Tokens(request).path) == Health ==> ResponseBody(s, e, request, ts) == HealthBody(s, e, ts)
    ensures Route(Tokens(request).httpMethod, Tokens(request).path) == Status ==> ResponseBody(s, e, request, ts) == StatusBody(s, e, ts)
    ensures Route(Tokens(request).httpMethod, Tokens(request).path) == Ports ==> ResponseBody(s, e, request, ts) == PortsBody(s, e, ts)
    ensures Route(Tokens(request).httpMethod, Tokens(request).path) == Connections ==>
      ResponseBody(s, e, request, ts) == ConnectionsBody(s, e, ts)
    ensures Route(Tokens(request).httpMethod, Tokens(request).path) == PostConnect ==>
      ResponseBody(s, e, request, ts) == HandleConnect(s, e, request, ts)
    ensures Route(Tokens(request).httpMethod, Tokens(request).path) == PostDisconnect ==>
      ResponseBody(s, e, request, ts) == HandleDisconnect(s, e, request, ts)
    ensures Route(Tokens(request).httpMethod, Tokens(request).path) == PostClear ==>
      ResponseBody(s, e, request, ts) == HandleClearAll(s, e, ts)
  {
  }

  function ProcessRequest(s: Session, e: Engine, request: string, ts: string): (r: Step<string>)
    ensures r.session == ResponseBody(s, e, request, ts).session
    ensures BodyOf(r.value) == Some(ResponseBody(s, e, request, ts).value)
    ensures StartsWith(r.value, StatusLine + Crlf)
    ensures HeadOf(r.value) == Some(HeaderBlock(|ResponseBody(s, e, request, ts).value|))
  {
    var b := ResponseBody(s, e, request, ts);
    FrameReadsBack(b.value);
    FrameStartsWithStatus(b.value);
    Step(b.session, Frame(b.value))
  }

  /** `handleClient`: a failed or empty read is closed without a response. */
  function HandleClient(s: Session, e: Engine, incoming: Option<string>, ts: string): (r: Step<Option<string>>)
    ensures ReadRequest(incoming).None? ==> r == Step(s, None)
    ensures ReadRequest(incoming).Some? ==>
      var p := ProcessRequest(s, e, ReadRequest(incoming).value, ts);
      r == Step(p.session, Some(p.value))
  {
    match ReadRequest(incoming)
    case None => Step(s, None)
    case Some(request) =>
      var p := ProcessRequest(s, e, request, ts);
      Step(p.session, Some(p.value))
  }

  // ---------------------------------------------------------------------------------------------
  // The watchdog in main

  /** The seconds counted since the last probe, and the session. */
  datatype Watch = Watch(counter: int, session: Session)

  const ProbeInterval: int := 30

  /** One second of the main loop: `if (++statusCheckCounter >= 30)` probe, and on failure reconnect. */
  function Tick(w: Watch, e: Engine): (r: Watch)
    ensures w.counter + 1 < ProbeInterval ==> r == Watch(w.counter + 1, w.session)
    ensures w.counter + 1 >= ProbeInterval ==> r.counter == 0
    ensures w.counter + 1 >= ProbeInterval && IsRunning(w.session, e).value ==> r.session == IsRunning(w.session, e).session
    ensures w.counter + 1 >= ProbeInterval && !IsRunning(w.session, e).value ==>
      r.session == Initialize(Shutdown(IsRunning(w.session, e).session), e).session
  {
    var c := w.counter + 1;
    if c >= ProbeInterval then
      var probe := IsRunning(w.session, e);
      if probe.value then Watch(0, probe.session)
      else Watch(0, Initialize(Shutdown(probe.session), e).session)
    else Watch(c, w.session)
  }

  /** The ticks of the main loop, one engine snapshot per second. */
  function Run(w: Watch, ticks: seq<Engine>): (r: Watch)
    ensures ticks == [] ==> r == w
    ensures |w.session.calls| <= |r.session.calls| && r.session.calls[..|w.session.calls|] == w.session.calls
    decreases |ticks|
  {
    if ticks == [] then w
    else
      var before := Run(w, ticks[..|ticks| - 1]);
      TickAppendsCalls(before, ticks[|ticks| - 1]);
      PrefixOfPrefix(w.session.calls, before.session.calls, Tick(before, ticks[|ticks| - 1]).session.calls);
      Tick(before, ticks[|ticks| - 1])
  }

  /** A tick only appends to the calls made so far. */
  lemma TickAppendsCalls(w: Watch, e: Engine)
    ensures |w.session.calls| <= |Tick(w, e).session.calls|
    ensures Tick(w, e).session.calls[..|w.session.calls|] == w.session.calls
  {
    var s := IsRunning(w.session, e).session;
    var t := Shutdown(s);
    assert t.calls[..|s.calls|] == s.calls;
    var u := Initialize(t, e).session;
    assert u.calls[..|t.calls|] == t.calls;
  }

  lemma PrefixOfPrefix(a: seq<EngineCall>, b: seq<EngineCall>, c: seq<EngineCall>)
    requires |a| <= |b| && b[..|a|] == a && |b| <= |c| && c[..|b|] == b
    ensures c[..|a|] == a
  {
    assert c[..|a|] == c[..|b|][..|a|];
  }

  /** The counter stays in 0..29, so the probe runs exactly on every thirtieth tick. */
  lemma TickKeepsCounter(w: Watch, e: Engine)
    requires 0 <= w.counter < ProbeInterval
    ensures 0 <= Tick(w, e).counter < ProbeInterval
    ensures Tick(w, e).counter == (w.counter + 1) % ProbeInterval
  {
  }

  /** A passing probe only refreshes the running flag; the client and the server are left alone. */
  lemma HealthyTickChangesNothing(w: Watch, e: Engine)
    requires w.counter + 1 >= ProbeInterval && IsRunning(w.session, e).value
    ensures Tick(w, e).session == w.session.(running := true)
  {
  }

  /**
   * A failing probe with a client held closes it and opens a fresh one: the server sees a close, then a
   * new open, and the tick ends holding a client exactly when the new one activates.
   */
  lemma FailedTickReconnects(w: Watch, e: Engine)
    requires w.counter + 1 >= ProbeInterval && w.session.client.Some? && !IsRunning(w.session, e).value
    ensures Tick(w, e).session.calls[..|w.session.calls| + 2] == w.session.calls + [Close, Open(ClientName)]
    ensures Tick(w, e).session.client.Some? <==> e.openResult.Some? && e.activateResult == 0
  {
    var t := Shutdown(IsRunning(w.session, e).session);
    assert t.calls == w.session.calls + [Close];
    var r := Initialize(t, e).session;
    assert r.calls[..|t.calls| + 1] == t.calls + [Open(ClientName)];
  }

  /** Watching from the start never raises the running flag without a client. */
  lemma {:induction false} RunKeepsConsistent(w: Watch, ticks: seq<Engine>)
    requires Consistent(w.session) && 0 <= w.counter < ProbeInterval
    ensures Consistent(Run(w, ticks).session) && 0 <= Run(w, ticks).counter < ProbeInterval
    decreases |ticks|
  {
    if ticks != [] {
      var v := Run(w, ticks[..|ticks| - 1]);
      RunKeepsConsistent(w, ticks[..|ticks| - 1]);
      var e := ticks[|ticks| - 1];
      ManagerKeepsConsistent(v.session, e, Edge("", ""));
      ManagerKeepsConsistent(IsRunning(v.session, e).session, e, Edge("", ""));
      ManagerKeepsConsistent(Shutdown(IsRunning(v.session, e).session), e, Edge("", ""));
    }
  }

  /**
   * The service: try to connect once, then start the HTTP server (whether its socket could be bound is the
   * parameter `serverStarts`). A server that starts is followed by the watchdog and by closing the client on
   * the way out; one that does not makes `main` return at once, with the client of the first attempt still open.
   */
  function Service(start: Engine, serverStarts: bool, ticks: seq<Engine>): (s: Session)
    ensures serverStarts ==> s.client.None? && !s.running
    ensures !serverStarts ==> (s.client.Some? <==> start.openResult.Some? && start.activateResult == 0)
    ensures !serverStarts && s.client.Some? ==> s.client == start.openResult && s.running
  {
    var first := Initialize(Initial(), start).session;
    if !serverStarts then first
    else
      var w := Run(Watch(0, first), ticks);
      RunKeepsConsistent(Watch(0, first), ticks);
      Shutdown(w.session)
  }
}
