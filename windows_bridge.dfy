/**
 * The Windows-container service as the program runs it: `JackBridgeServer` and the globals `jack_client` and
 * `jack_running` it works on (kept here as fields, since nothing else touches them), with `calls` standing
 * for what the server has been asked to do so far. Every method is proved to take the step the
 * corresponding function of `WindowsService` describes.
 */
module WindowsBridge {
  import opened Wrappers
  import opened Text
  import opened Json
  import opened JackEngine
  import opened Http
  import opened WindowsService

  class JackBridgeServer {
    const port: int
    var client: Option<Handle>
    var running: bool
    var calls: seq<EngineCall>

    function State(): Session
      reads this
    {
      Session(client, running, calls)
    }

    /** `JackBridgeServer(int p)`, with the globals as the program starts them. */
    constructor(p: int)
      ensures port == p && State() == Initial()
    {
      port := p;
      client := None;
      running := false;
      calls := [];
    }

    method CheckJackConnection(e: Engine) returns (ok: bool)
      modifies this
      ensures Step(State(), ok) == Check(old(State()), e)
    {
      if client.None? {
        calls := calls + [Open(ProbeClientName)];
        client := e.openResult;
        if client.None? {
          running := false;
          return false;
        }
        calls := calls + [Activate];
        if e.activateResult != 0 {
          calls := calls + [Close];
          client := None;
          running := false;
          return false;
        }
      }
      var sr := e.sampleRate;
      if sr > 0 {
        running := true;
        return true;
      }
      running := false;
      return false;
    }

    method GetHealthStatus(e: Engine, ts: string) returns (body: string)
      modifies this
      ensures Step(State(), body) == HealthBody(old(State()), e, ts)
    {
      var ok := CheckJackConnection(e);
      body := Object(HealthFields(ok, ts));
    }

    /** `getJackStatus`: the members are streamed in order, the server's numbers only with the probe passed and a client held. */
    method GetJackStatus(e: Engine, ts: string) returns (body: string)
      modifies this
      ensures Step(State(), body) == StatusBody(old(State()), e, ts)
    {
      var ok := CheckJackConnection(e);
      var head := [Field("success", Bool(ok)), Field("jack_running", Bool(ok)), MethodField(), Field("container", Str("windows"))];
      var fields := head;
      if ok && client.Some? {
        fields := fields + [Field("sample_rate", Num(e.sampleRate)), Field("buffer_size", Num(e.bufferSize))];
      } else {
        assert fields == head + [];
      }
      fields := fields + [TimestampField(ts)];
      assert fields == StatusFields(ok && client.Some?, ok, e, ts);
      body := Object(fields);
    }

    method GetJackPorts(e: Engine, ts: string) returns (body: string)
      modifies this
      ensures Step(State(), body) == PortsBody(old(State()), e, ts)
    {
      var ok := CheckJackConnection(e);
      if !ok {
        return ErrorBody(NotRunningError);
      }
      match e.allPorts {
        case None =>
          return ErrorBody(NoPortsError);
        case Some(ports) =>
          var portList := QuoteEach(ports);
          var joined := Join(portList, ",");
          var portsJson := "[" + joined + "]";
          body := Object([Field("success", Bool(true)), Field("ports", Raw(portsJson)), Field("count", Num(|portList|)), MethodField(), TimestampField(ts)]);
      }
    }

    /** The `port_list` loop: each name pushed in quotes. */
    static method QuoteEach(ports: seq<PortName>) returns (portList: seq<string>)
      ensures portList == Quoted(ports)
    {
      portList := [];
      for i := 0 to |ports|
        invariant portList == Quoted(ports[..i])
      {
        portList := portList + ["\"" + ports[i] + "\""];
        assert Quoted(ports[..i + 1]) == Quoted(ports[..i]) + [Quote(ports[i])];
      }
      assert ports[..|ports|] == ports;
    }

    method GetJackConnections(e: Engine, ts: string) returns (body: string)
      modifies this
      ensures Step(State(), body) == ConnectionsBody(old(State()), e, ts)
    {
      var ok := CheckJackConnection(e);
      if !ok {
        return ErrorBody(NotRunningError);
      }
      match e.outputPorts {
        case None =>
          return Object(NoConnectionsFields());
        case Some(outputs) =>
          var connections := ConnectionTexts(outputs, e);
          var joined := Join(connections, ",");
          var connectionsJson := "[" + joined + "]";
          body := Object([Field("success", Bool(true)), Field("connections", Raw(connectionsJson)), Field("count", Num(|connections|)), MethodField(), TimestampField(ts)]);
      }
    }

    /**
     * The nested loops of `getJackConnections`: for each output port, one text per peer; a port the server
     * cannot find, or one with no connection list, contributes nothing.
     */
    static method ConnectionTexts(outputs: seq<PortName>, e: Engine) returns (connections: seq<string>)
      ensures connections == EdgeObjects(EdgesOf(outputs, e))
    {
      connections := [];
      for i := 0 to |outputs|
        invariant connections == EdgeObjects(EdgesOf(outputs[..i], e))
      {
        var p := outputs[i];
        var texts := PeerTexts(p, PeersOf(e, p));
        assert outputs[..i + 1] == outputs[..i] + [p];
        EdgesOfAppend(outputs[..i], p, e);
        EdgeObjectsAppend(EdgesOf(outputs[..i], e), PeerEdges(p, PeersOf(e, p)));
        connections := connections + texts;
      }
      assert outputs[..|outputs|] == outputs;
    }

    /** The inner loop of `getJackConnections`: one `{"from","to"}` text per peer of `p`. */
    static method PeerTexts(p: PortName, peers: seq<PortName>) returns (texts: seq<string>)
      ensures texts == EdgeObjects(PeerEdges(p, peers))
    {
      texts := [];
      for j := 0 to |peers|
        invariant texts == EdgeObjects(PeerEdges(p, peers[..j]))
      {
        var item := EdgeText(Edge(p, peers[j]));
        PeerObjectsStep(p, peers, j);
        texts := texts + [item];
      }
      assert peers[..|peers|] == peers;
    }

    method HandleConnect(e: Engine, request: string, ts: string) returns (body: string)
      modifies this
      ensures Step(State(), body) == WindowsService.HandleConnect(old(State()), e, request, ts)
    {
      match ParseEdgeRequest(request) {
        case Failure(message) =>
          return ErrorBody(message);
        case Success(edge) =>
          var ok := CheckJackConnection(e);
          if !ok {
            return ErrorBody(NotRunningError);
          }
          calls := calls + [Connect(edge)];
          var result := e.connectResult(edge);
          var success := result == 0 || result == EEXIST;
          var alreadyConnected := result == EEXIST;
          body := Object([Field("success", Bool(success)),
                          Field("already_connected", Bool(alreadyConnected)),
                          Field("message", Str(if success then "Connected" else "Failed")),
                          MethodField(),
                          TimestampField(ts)]);
      }
    }

    method HandleDisconnect(e: Engine, request: string, ts: string) returns (body: string)
      modifies this
      ensures Step(State(), body) == WindowsService.HandleDisconnect(old(State()), e, request, ts)
    {
      match ParseEdgeRequest(request) {
        case Failure(message) =>
          return ErrorBody(message);
        case Success(edge) =>
          var ok := CheckJackConnection(e);
          if !ok {
            return ErrorBody(NotRunningError);
          }
          calls := calls + [Disconnect(edge)];
          var result := e.disconnectResult(edge);
          var success := result == 0;
          body := Object(CommandFields(success, "Disconnected", ts));
      }
    }

    method HandleClearAll(e: Engine, ts: string) returns (body: string)
      modifies this
      ensures Step(State(), body) == WindowsService.HandleClearAll(old(State()), e, ts)
    {
      var ok := CheckJackConnection(e);
      if !ok {
        return ErrorBody(NotRunningError);
      }
      match e.outputPorts {
        case None =>
          return Object(NothingToClearFields());
        case Some(outputs) =>
          var disconnected, sent := DisconnectAll(outputs, e);
          calls := calls + sent;
          body := Object(ClearFields(disconnected, ts));
      }
    }

    /** The nested counting loops of `handleClearAll`: one disconnect per output port and peer. */
    static method DisconnectAll(outputs: seq<PortName>, e: Engine) returns (disconnected: nat, sent: seq<EngineCall>)
      ensures disconnected == Cleared(EdgesOf(outputs, e), e)
      ensures sent == DisconnectCalls(EdgesOf(outputs, e))
    {
      disconnected, sent := 0, [];
      for i := 0 to |outputs|
        invariant disconnected == Cleared(EdgesOf(outputs[..i], e), e)
        invariant sent == DisconnectCalls(EdgesOf(outputs[..i], e))
      {
        var p := outputs[i];
        var peers := PeersOf(e, p);
        var count, calls := DisconnectPeers(p, peers, e);
        assert outputs[..i + 1] == outputs[..i] + [p];
        EdgesOfAppend(outputs[..i], p, e);
        ClearedConcat(EdgesOf(outputs[..i], e), PeerEdges(p, peers), e);
        DisconnectCallsAppend(EdgesOf(outputs[..i], e), PeerEdges(p, peers));
        disconnected, sent := disconnected + count, sent + calls;
      }
      assert outputs[..|outputs|] == outputs;
    }

    /** The inner loop of `handleClearAll`: one disconnect per peer of `p`, counting the 0 results. */
    static method DisconnectPeers(p: PortName, peers: seq<PortName>, e: Engine) returns (count: nat, sent: seq<EngineCall>)
      ensures count == Cleared(PeerEdges(p, peers), e)
      ensures sent == DisconnectCalls(PeerEdges(p, peers))
    {
      count, sent := 0, [];
      for j := 0 to |peers|
        invariant count == Cleared(PeerEdges(p, peers[..j]), e)
        invariant sent == DisconnectCalls(PeerEdges(p, peers[..j]))
      {
        var edge := Edge(p, peers[j]);
        sent := sent + [Disconnect(edge)];
        if e.disconnectResult(edge) == 0 {
          count := count + 1;
        }
        assert PeerEdges(p, peers[..j + 1]) == PeerEdges(p, peers[..j]) + [edge];
        ClearedAppend(PeerEdges(p, peers[..j]), edge, e);
        DisconnectCallsAppend(PeerEdges(p, peers[..j]), [edge]);
      }
      assert peers[..|peers|] == peers;
    }

    /** `join`: the first element, then the delimiter and each later element. */
    static method Join(vec: seq<string>, delimiter: string) returns (result: string)
      ensures result == Joined(vec, delimiter)
    {
      if |vec| == 0 {
        return "";
      }
      result := vec[0];
      assert vec[..1] == [vec[0]];
      for i := 1 to |vec|
        invariant result == Joined(vec[..i], delimiter)
      {
        assert vec[..i + 1] == vec[..i] + [vec[i]];
        JoinedSnoc(vec[..i], vec[i], delimiter);
        result := result + delimiter + vec[i];
      }
      assert vec[..|vec|] == vec;
    }

    /** The dispatch of `processRequest`, by the endpoint its if-chain selects. */
    method Respond(e: Engine, request: string, ts: string) returns (body: string)
      modifies this
      ensures Step(State(), body) == ResponseBody(old(State()), e, request, ts)
    {
      var line := Tokens(request);
      match Route(line.httpMethod, line.path)
      case Preflight => body := "";
      case Health => body := GetHealthStatus(e, ts);
      case Status => body := GetJackStatus(e, ts);
      case Ports => body := GetJackPorts(e, ts);
      case Connections => body := GetJackConnections(e, ts);
      case PostConnect => body := HandleConnect(e, request, ts);
      case PostDisconnect => body := HandleDisconnect(e, request, ts);
      case PostClear => body := HandleClearAll(e, ts);
      case NotFound => body := NotFoundBody(line.path);
    }

    /** `processRequest`: the routed body in the always-200 frame. */
    method ProcessRequest(e: Engine, request: string, ts: string) returns (response: string)
      modifies this
      ensures Step(State(), response) == WindowsService.ProcessRequest(old(State()), e, request, ts)
    {
      var body := Respond(e, request, ts);
      response := Frame(body);
    }

    /** `handleRequest`: one read of at most 4095 bytes; nothing is sent back for a failed or empty one. */
    method HandleRequest(e: Engine, incoming: Option<string>, ts: string) returns (response: Option<string>)
      modifies this
      ensures Step(State(), response) == WindowsService.HandleRequest(old(State()), e, incoming, ts)
    {
      var request := ReadRequest(incoming);
      if request.None? {
        return None;
      }
      var text := ProcessRequest(e, request.value, ts);
      response := Some(text);
    }

    /** The clean-up at the end of `main`. */
    method Cleanup()
      modifies this
      ensures State() == WindowsService.Cleanup(old(State()))
    {
      if client.Some? {
        calls := calls + [Close];
        client := None;
      }
    }
  }
}
