/**
 * The local Windows service as the program runs it: `JackManager` over the globals `g_jackClient` and
 * `g_jackRunning`, `HttpServer` whose handlers call into it, and the watchdog loop of `main`. Every method
 * is proved to take the step the corresponding function of `LocalManager` or `LocalService` describes.
 * `calls` stands for what the server has been asked to do so far.
 */
module LocalBridge {
  import opened Wrappers
  import opened Text
  import opened Json
  import opened JackEngine
  import opened Http
  import LocalManager
  import opened LocalService

  class JackManager {
    var client: Option<Handle>
    var running: bool
    var calls: seq<EngineCall>

    function State(): Session
      reads this
    {
      Session(client, running, calls)
    }

    constructor()
      ensures State() == Initial()
    {
      client := None;
      running := false;
      calls := [];
    }

    method Initialize(e: Engine) returns (ok: bool)
      modifies this
      ensures Step(State(), ok) == LocalManager.Initialize(old(State()), e)
    {
      if client.Some? {
        return true;
      }
      calls := calls + [Open(LocalManager.ClientName)];
      client := e.openResult;
      if client.None? {
        return false;
      }
      calls := calls + [Activate];
      if e.activateResult != 0 {
        calls := calls + [Close];
        client := None;
        return false;
      }
      running := true;
      return true;
    }

    method Shutdown()
      modifies this
      ensures State() == LocalManager.Shutdown(old(State()))
    {
      if client.Some? {
        calls := calls + [Close];
        client := None;
        running := false;
      }
    }

    method IsRunning(e: Engine) returns (ok: bool)
      modifies this
      ensures Step(State(), ok) == LocalManager.IsRunning(old(State()), e)
    {
      if client.None? {
        return false;
      }
      running := e.sampleRate > 0;
      return running;
    }

    /** `jackShutdownCallback`. */
    method OnServerShutdown()
      modifies this
      ensures State() == LocalManager.ServerShutdown(old(State()))
    {
      running := false;
    }

    method GetPorts(e: Engine) returns (ports: seq<PortName>)
      ensures ports == LocalManager.Ports(State(), e)
    {
      ports := [];
      if client.None? {
        return;
      }
      match e.allPorts {
        case None =>
        case Some(listed) =>
          for i := 0 to |listed|
            invariant ports == listed[..i]
          {
            ports := ports + [listed[i]];
          }
          assert listed[..|listed|] == listed;
      }
    }

    /** The two nested loops of `getConnections`, over the output ports and then over each one's peers. */
    static method ListEdges(outputs: seq<PortName>, e: Engine) returns (edges: seq<Edge>)
      ensures edges == EdgesOf(outputs, e)
    {
      edges := [];
      for i := 0 to |outputs|
        invariant edges == EdgesOf(outputs[..i], e)
      {
        var p := outputs[i];
        var peers := PeersOf(e, p);
        ghost var before := edges;
        for j := 0 to |peers|
          invariant edges == before + PeerEdges(p, peers[..j])
        {
          edges := edges + [Edge(p, peers[j])];
          assert PeerEdges(p, peers[..j + 1]) == PeerEdges(p, peers[..j]) + [Edge(p, peers[j])];
        }
        assert peers[..|peers|] == peers;
        assert outputs[..i + 1] == outputs[..i] + [p];
        EdgesOfAppend(outputs[..i], p, e);
      }
      assert outputs[..|outputs|] == outputs;
    }

    method GetConnections(e: Engine) returns (edges: seq<Edge>)
      ensures edges == LocalManager.Connections(State(), e)
    {
      if client.None? {
        return [];
      }
      edges := ListEdges(e.outputPorts.GetOr([]), e);
    }

    method ConnectPorts(e: Engine, edge: Edge) returns (ok: bool)
      modifies this
      ensures Step(State(), ok) == LocalManager.ConnectPorts(old(State()), e, edge)
    {
      if client.None? {
        return false;
      }
      calls := calls + [Connect(edge)];
      var result := e.connectResult(edge);
      if result == 0 {
        return true;
      } else if result == EEXIST {
        return true;
      } else {
        return false;
      }
    }

    method DisconnectPorts(e: Engine, edge: Edge) returns (ok: bool)
      modifies this
      ensures Step(State(), ok) == LocalManager.DisconnectPorts(old(State()), e, edge)
    {
      if client.None? {
        return false;
      }
      calls := calls + [Disconnect(edge)];
      ok := e.disconnectResult(edge) == 0;
    }

    /** `clearAllConnections`, listing the edges through the unlocked helper rather than `getConnections`. */
    method ClearAllConnections(e: Engine) returns (cleared: nat)
      modifies this
      ensures Step(State(), cleared) == LocalManager.ClearAllConnections(old(State()), e)
    {
      if client.None? {
        return 0;
      }
      var edges := ListEdges(e.outputPorts.GetOr([]), e);
      var sent;
      cleared, sent := DisconnectEach(edges, e);
      calls := calls + sent;
    }

    /** The counting loop: one disconnect per edge, counting those the server reports as done. */
    static method DisconnectEach(edges: seq<Edge>, e: Engine) returns (cleared: nat, sent: seq<EngineCall>)
      ensures cleared == Cleared(edges, e) && sent == DisconnectCalls(edges)
    {
      cleared, sent := 0, [];
      for i := 0 to |edges|
        invariant cleared == Cleared(edges[..i], e)
        invariant sent == DisconnectCalls(edges[..i])
      {
        sent := sent + [Disconnect(edges[i])];
        if e.disconnectResult(edges[i]) == 0 {
          cleared := cleared + 1;
        }
        assert edges[..i + 1] == edges[..i] + [edges[i]];
        ClearedAppend(edges[..i], edges[i], e);
        DisconnectCallsAppend(edges[..i], [edges[i]]);
      }
      assert edges[..|edges|] == edges;
    }

    method GetJackInfo(e: Engine) returns (info: string)
      ensures info == LocalManager.JackInfo(State(), e)
    {
      if client.None? {
        return "{}";
      }
      info := Object(LocalManager.InfoFields(e));
    }
  }

  class HttpServer {
    const manager: JackManager

    constructor(manager: JackManager)
      ensures this.manager == manager
    {
      this.manager := manager;
    }

    method GetHealthStatus(e: Engine, ts: string) returns (body: string)
      modifies manager
      ensures Step(manager.State(), body) == HealthBody(old(manager.State()), e, ts)
    {
      var ok := manager.IsRunning(e);
      body := Object(HealthFields(ok, ts));
    }

    method GetJackStatus(e: Engine, ts: string) returns (body: string)
      modifies manager
      ensures Step(manager.State(), body) == StatusBody(old(manager.State()), e, ts)
    {
      var ok := manager.IsRunning(e);
      var head, tail := Inner(StatusHead(ok)), Inner([TimestampField(ts)]);
      var response := "{" + head;
      if ok {
        var info := manager.GetJackInfo(e);
        response := response + "," + Unbrace(info);
        body := response + "," + tail + "}";
        assert body == "{" + head + ("," + Unbrace(info)) + "," + tail + "}";
      } else {
        body := response + "," + tail + "}";
        assert body == "{" + head + "" + "," + tail + "}";
      }
    }

    method GetJackPorts(e: Engine, ts: string) returns (body: string)
      modifies manager
      ensures Step(manager.State(), body) == PortsBody(old(manager.State()), e, ts)
    {
      var ok := manager.IsRunning(e);
      if !ok {
        return ErrorBody(NotRunningError);
      }
      var ports := manager.GetPorts(e);
      var portsJson := PortsArray(ports);
      body := Object([Field("success", Bool(true)), Field("ports", Raw(portsJson)), Field("count", Num(|ports|)), MethodField(), TimestampField(ts)]);
    }

    /** The `portsJson` loop: each name quoted, a comma after every one but the last, in brackets. */
    static method PortsArray(ports: seq<PortName>) returns (portsJson: string)
      ensures portsJson == Array(Quoted(ports))
    {
      var items := Quoted(ports);
      portsJson := "[";
      for i := 0 to |ports|
        invariant portsJson == "[" + Joined(items[..i], ",") + Pending(i, |ports|)
      {
        ArrayLoopStep(items, i);
        var sep := if i < |ports| - 1 then "," else "";
        ghost var before := portsJson;
        portsJson := portsJson + "\"" + ports[i] + "\"";
        if i < |ports| - 1 {
          portsJson := portsJson + ",";
        }
        assert portsJson == before + items[i] + sep;
      }
      ArrayLoopEnd(items);
      portsJson := portsJson + "]";
    }

    method GetJackConnections(e: Engine, ts: string) returns (body: string)
      modifies manager
      ensures Step(manager.State(), body) == ConnectionsBody(old(manager.State()), e, ts)
    {
      var ok := manager.IsRunning(e);
      if !ok {
        return ErrorBody(NotRunningError);
      }
      var edges := manager.GetConnections(e);
      var connectionsJson := ConnectionsArray(edges);
      body := Object([Field("success", Bool(true)), Field("connections", Raw(connectionsJson)), Field("count", Num(|edges|)), MethodField(), TimestampField(ts)]);
    }

    /** The `connectionsJson` loop: one `{"from","to"}` object per edge, comma-separated, in brackets. */
    static method ConnectionsArray(edges: seq<Edge>) returns (connectionsJson: string)
      ensures connectionsJson == Array(EdgeObjects(edges))
    {
      var items := EdgeObjects(edges);
      connectionsJson := "[";
      for i := 0 to |edges|
        invariant connectionsJson == "[" + Joined(items[..i], ",") + Pending(i, |edges|)
      {
        ArrayLoopStep(items, i);
        var sep := if i < |edges| - 1 then "," else "";
        ghost var before := connectionsJson;
        var item := EdgeText(edges[i]);
        connectionsJson := connectionsJson + item;
        if i < |edges| - 1 {
          connectionsJson := connectionsJson + ",";
        }
        assert connectionsJson == before + items[i] + sep;
      }
      ArrayLoopEnd(items);
      connectionsJson := connectionsJson + "]";
    }

    method HandleConnect(e: Engine, request: string, ts: string) returns (body: string)
      modifies manager
      ensures Step(manager.State(), body) == LocalService.HandleConnect(old(manager.State()), e, request, ts)
    {
      match ParseEdgeRequest(request) {
        case Failure(message) =>
          return ErrorBody(message);
        case Success(edge) =>
          var ok := manager.IsRunning(e);
          if !ok {
            return ErrorBody(NotRunningError);
          }
          var success := manager.ConnectPorts(e, edge);
          body := Object(CommandFields(success, "Connected", ts));
      }
    }

    method HandleDisconnect(e: Engine, request: string, ts: string) returns (body: string)
      modifies manager
      ensures Step(manager.State(), body) == LocalService.HandleDisconnect(old(manager.State()), e, request, ts)
    {
      match ParseEdgeRequest(request) {
        case Failure(message) =>
          return ErrorBody(message);
        case Success(edge) =>
          var ok := manager.IsRunning(e);
          if !ok {
            return ErrorBody(NotRunningError);
          }
          var success := manager.DisconnectPorts(e, edge);
          body := Object(CommandFields(success, "Disconnected", ts));
      }
    }

    method HandleClearAll(e: Engine, ts: string) returns (body: string)
      modifies manager
      ensures Step(manager.State(), body) == LocalService.HandleClearAll(old(manager.State()), e, ts)
    {
      var ok := manager.IsRunning(e);
      if !ok {
        return ErrorBody(NotRunningError);
      }
      var cleared := manager.ClearAllConnections(e);
      body := Object(ClearFields(cleared, ts));
    }

    /** The dispatch of `processRequest`, by the endpoint its if-chain selects. */
    method Respond(e: Engine, request: string, ts: string) returns (body: string)
      modifies manager
      ensures Step(manager.State(), body) == ResponseBody(old(manager.State()), e, request, ts)
    {
      var line := Tokens(request);
      match Route(line.httpMethod, line.path)
      case Preflight => body := "";
      case Health => body := GetHealthStatus(e, ts);
      case Status => body := GetJackStatus(e, ts);
      case Ports => body := GetJackPorts(e, ts);
      case Connections => body := GetJackConnections(e, ts);
      case PostConnect => body := HandleConnect(e, request, ts);
      case PostDisconnect => body := HandleDisconnect(e, request, ts);
      case PostClear => body := HandleClearAll(e, ts);
      case NotFound => body := NotFoundBody(line.path);
    }

    /** `processRequest`: the routed body in the always-200 frame. */
    method ProcessRequest(e: Engine, request: string, ts: string) returns (response: string)
      modifies manager
      ensures Step(manager.State(), response) == LocalService.ProcessRequest(old(manager.State()), e, request, ts)
    {
      var body := Respond(e, request, ts);
      response := Frame(body);
    }

    method HandleClient(e: Engine, incoming: Option<string>, ts: string) returns (response: Option<string>)
      modifies manager
      ensures Step(manager.State(), response) == LocalService.HandleClient(old(manager.State()), e, incoming, ts)
    {
      var request := ReadRequest(incoming);
      if request.None? {
        return None;
      }
      var text := ProcessRequest(e, request.value, ts);
      response := Some(text);
    }
  }

  /**
   * `main` after start-up: one connection attempt, then (when the HTTP server starts) the one-second loop with
   * its probe every thirty ticks (one engine snapshot per tick, until the service is told to stop), and the
   * final shutdown. When the server does not start, `main` returns 1 without shutting the manager down.
   */
  method RunService(manager: JackManager, start: Engine, serverStarts: bool, ticks: seq<Engine>)
    requires manager.State() == Initial()
    modifies manager
    ensures manager.State() == Service(start, serverStarts, ticks)
  {
    var _ := manager.Initialize(start);
    if !serverStarts {
      return;
    }
    ghost var w0 := Watch(0, manager.State());
    var counter := 0;
    for i := 0 to |ticks|
      invariant Watch(counter, manager.State()) == Run(w0, ticks[..i])
    {
      var e := ticks[i];
      assert ticks[..i + 1][..i] == ticks[..i];
      counter := counter + 1;
      if counter >= ProbeInterval {
        counter := 0;
        var ok := manager.IsRunning(e);
        if !ok {
          manager.Shutdown();
          var _ := manager.Initialize(e);
        }
      }
    }
    assert ticks[..|ticks|] == ticks;
    manager.Shutdown();
  }
}
