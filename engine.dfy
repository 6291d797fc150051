/**
 * The JACK server as the bridge sees it through the JACK C API. A value of `Engine` fixes the answers the
 * server gives during one request or one watchdog tick: whether `jack_client_open` hands out a client, what
 * `jack_activate` returns, the sample rate and buffer size, the port lists `jack_get_ports` returns (or NULL),
 * the peers `jack_port_get_all_connections` lists for each port (or NULL, also when `jack_port_by_name`
 * finds no port), and the result code of `jack_connect` / `jack_disconnect` for every edge.
 *
 * A `Session` is the state both services keep in globals: the client handle, the `running` flag, and the
 * calls made so far that change the server (open, activate, close, connect, disconnect). Queries
 * (sample rate, buffer size, port lists) change nothing and are not recorded.
 */
module JackEngine {
  import opened Wrappers

  type PortName = string

  /** A directed connection from an output port to an input port. */
  datatype Edge = Edge(from: PortName, to: PortName)

  /** A `jack_client_t*` that is not NULL. */
  datatype Handle = Handle(id: nat)

  /** The code `jack_connect` returns when the connection already exists (`EEXIST` on Windows and Linux). */
  const EEXIST: int := 17

  datatype Engine = Engine(
    openResult: Option<Handle>,
    activateResult: int,
    sampleRate: nat,
    bufferSize: nat,
    clientName: string,
    allPorts: Option<seq<PortName>>,
    outputPorts: Option<seq<PortName>>,
    peers: PortName -> Option<seq<PortName>>,
    connectResult: Edge -> int,
    disconnectResult: Edge -> int)

  /** The calls that change the server, in the order they are made. */
  datatype EngineCall = Open(name: string) | Activate | Close | Connect(edge: Edge) | Disconnect(edge: Edge)

  datatype Session = Session(client: Option<Handle>, running: bool, calls: seq<EngineCall>)

  /** The state after an operation, paired with what the operation returns. */
  datatype Step<T> = Step(session: Session, value: T)

  /** The state at process start: no client, not running, nothing called. */
  function Initial(): (s: Session)
    ensures s.client.None? && !s.running && s.calls == []
  {
    Session(None, false, [])
  }

  /** A running flag is only ever raised while a client is held. */
  predicate Consistent(s: Session) {
    s.client.None? ==> !s.running
  }

  /** `t` has made the calls of `s` followed by exactly `extra`. */
  predicate Extends(s: Session, t: Session, extra: seq<EngineCall>) {
    t.calls == s.calls + extra
  }

  // ---------------------------------------------------------------------------------------------
  // Listing connections

  /** The edges from port `p` to each of its peers, in the order the server lists them. */
  function PeerEdges(p: PortName, peers: seq<PortName>): (es: seq<Edge>)
    ensures |es| == |peers| && forall j :: 0 <= j < |peers| ==> es[j] == Edge(p, peers[j])
  {
    seq(|peers|, j requires 0 <= j < |peers| => Edge(p, peers[j]))
  }

  /** The peers of `p`, with NULL (no port or no connection list) read as none. */
  function PeersOf(e: Engine, p: PortName): seq<PortName> {
    e.peers(p).GetOr([])
  }

  /** For each output port in order, the edges to its peers: the nested loops over ports and peers. */
  function EdgesOf(ports: seq<PortName>, e: Engine): (edges: seq<Edge>)
    ensures ports == [] ==> edges == []
    ensures forall i :: 0 <= i < |edges| ==> edges[i].from in ports
    decreases |ports|
  {
    if ports == [] then []
    else
      var p := ports[|ports| - 1];
      EdgesOf(ports[..|ports| - 1], e) + PeerEdges(p, PeersOf(e, p))
  }

  /** An edge is listed exactly when it leaves one of the ports and the server names its target as a peer. */
  lemma {:induction false} EdgesOfMembers(ports: seq<PortName>, e: Engine, edge: Edge)
    ensures edge in EdgesOf(ports, e) <==> edge.from in ports && edge.to in PeersOf(e, edge.from)
    decreases |ports|
  {
    if ports != [] {
      var init, p := ports[..|ports| - 1], ports[|ports| - 1];
      EdgesOfMembers(init, e, edge);
      assert ports == init + [p];
      var pe := PeerEdges(p, PeersOf(e, p));
      if edge in pe {
        var j :| 0 <= j < |pe| && pe[j] == edge;
        assert edge.to == PeersOf(e, p)[j];
      }
      if edge.from == p && edge.to in PeersOf(e, p) {
        var j :| 0 <= j < |PeersOf(e, p)| && PeersOf(e, p)[j] == edge.to;
        assert pe[j] == edge;
      }
    }
  }

  lemma {:induction false} EdgesOfAppend(ports: seq<PortName>, p: PortName, e: Engine)
    ensures EdgesOf(ports + [p], e) == EdgesOf(ports, e) + PeerEdges(p, PeersOf(e, p))
  {
    assert (ports + [p])[..|ports|] == ports;
  }

  // ---------------------------------------------------------------------------------------------
  // Clearing connections

  /** How many of `edges` the server reports as removed (result 0). */
  function Cleared(edges: seq<Edge>, e: Engine): (n: nat)
    ensures n <= |edges|
    decreases |edges|
  {
    if edges == [] then 0
    else Cleared(edges[..|edges| - 1], e) + (if e.disconnectResult(edges[|edges| - 1]) == 0 then 1 else 0)
  }

  /** The disconnect calls of one attempt at each edge, in order. */
  function DisconnectCalls(edges: seq<Edge>): (cs: seq<EngineCall>)
    ensures |cs| == |edges| && forall j :: 0 <= j < |edges| ==> cs[j] == Disconnect(edges[j])
  {
    seq(|edges|, j requires 0 <= j < |edges| => Disconnect(edges[j]))
  }

  /** The count never exceeds the number of edges attempted, and reaches it exactly when every attempt succeeds. */
  lemma {:induction false} ClearedBound(edges: seq<Edge>, e: Engine)
    ensures Cleared(edges, e) <= |edges|
    ensures Cleared(edges, e) == |edges| <==> forall j :: 0 <= j < |edges| ==> e.disconnectResult(edges[j]) == 0
    decreases |edges|
  {
    if edges != [] {
      var init := edges[..|edges| - 1];
      ClearedBound(init, e);
      if Cleared(edges, e) == |edges| {
        forall j | 0 <= j < |edges| ensures e.disconnectResult(edges[j]) == 0 {
          if j < |init| {
            assert edges[j] == init[j];
          }
        }
      }
      if forall j :: 0 <= j < |edges| ==> e.disconnectResult(edges[j]) == 0 {
        assert forall j :: 0 <= j < |init| ==> init[j] == edges[j];
      }
    }
  }

  lemma {:induction false} ClearedAppend(edges: seq<Edge>, x: Edge, e: Engine)
    ensures Cleared(edges + [x], e) == Cleared(edges, e) + (if e.disconnectResult(x) == 0 then 1 else 0)
  {
    assert (edges + [x])[..|edges|] == edges;
  }

  lemma {:induction false} ClearedConcat(a: seq<Edge>, b: seq<Edge>, e: Engine)
    ensures Cleared(a + b, e) == Cleared(a, e) + Cleared(b, e)
    decreases |b|
  {
    if b == [] {
      assert a + b == a;
    } else {
      var init, x := b[..|b| - 1], b[|b| - 1];
      assert a + b == (a + init) + [x];
      assert b == init + [x];
      ClearedAppend(a + init, x, e);
      ClearedAppend(init, x, e);
      ClearedConcat(a, init, e);
    }
  }

  lemma DisconnectCallsAppend(a: seq<Edge>, b: seq<Edge>)
    ensures DisconnectCalls(a + b) == DisconnectCalls(a) + DisconnectCalls(b)
  {
  }
}
