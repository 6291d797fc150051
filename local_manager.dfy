/**
 * The `JackManager` of the local Windows service, as functions of the session state and the server's
 * answers. Every public method of the source holds `g_jackMutex` for its whole body, so each one is a
 * single atomic step here; the class in `LocalBridge` runs the same steps imperatively.
 */
module LocalManager {
  import opened Wrappers
  import opened Json
  import opened JackEngine

  const ClientName: string := "jack-bridge-local"

  /**
   * `initialize`: keep a client that is already there; otherwise open one and activate it, closing it again
   * if activation fails. A failure leaves the running flag as it was.
   */
  function Initialize(s: Session, e: Engine): (r: Step<bool>)
    ensures s.client.Some? ==> r == Step(s, true)
    ensures r.value <==> r.session.client.Some?
    ensures !r.value ==> r.session.running == s.running
    ensures s.client.None? ==> r.value == (e.openResult.Some? && e.activateResult == 0)
    ensures s.client.None? && r.value ==> r.session.client == e.openResult && r.session.running
  {
    if s.client.Some? then Step(s, true)
    else
      match e.openResult
      case None => Step(Session(None, s.running, s.calls + [Open(ClientName)]), false)
      case Some(h) =>
        if e.activateResult != 0 then
          Step(Session(None, s.running, s.calls + [Open(ClientName), Activate, Close]), false)
        else
          Step(Session(Some(h), true, s.calls + [Open(ClientName), Activate]), true)
  }

  /** `shutdown`: close the client if there is one. */
  function Shutdown(s: Session): (r: Session)
    ensures r.client.None?
    ensures s.client.Some? ==> !r.running && r.calls == s.calls + [Close]
    ensures s.client.None? ==> r == s
  {
    if s.client.Some? then Session(None, false, s.calls + [Close]) else s
  }

  /** `isRunning`: the probe; with a client, the running flag becomes whether the sample rate is positive. */
  function IsRunning(s: Session, e: Engine): (r: Step<bool>)
    ensures r.session.client == s.client && r.session.calls == s.calls
    ensures r.value <==> s.client.Some? && e.sampleRate > 0
    ensures s.client.Some? ==> r.session.running == r.value
    ensures s.client.None? ==> r.session == s
  {
    if s.client.None? then Step(s, false)
    else Step(Session(s.client, e.sampleRate > 0, s.calls), e.sampleRate > 0)
  }

  /** `jackShutdownCallback`: the server went away; the client pointer is kept. */
  function ServerShutdown(s: Session): (r: Session)
    ensures !r.running && r.client == s.client && r.calls == s.calls
  {
    Session(s.client, false, s.calls)
  }

  /** `getPorts`: every port the server lists, none without a client or when the server returns NULL. */
  function Ports(s: Session, e: Engine): (ports: seq<PortName>)
    ensures s.client.None? || e.allPorts.None? ==> ports == []
    ensures s.client.Some? && e.allPorts.Some? ==> ports == e.allPorts.value
  {
    if s.client.None? then [] else e.allPorts.GetOr([])
  }

  /** The output ports whose connections are listed, none without a client or when the server returns NULL. */
  function OutputPorts(s: Session, e: Engine): seq<PortName> {
    if s.client.None? then [] else e.outputPorts.GetOr([])
  }

  /** `getConnections`: for every output port, an edge to each of its peers. */
  function Connections(s: Session, e: Engine): (edges: seq<Edge>)
    ensures s.client.None? ==> edges == []
    ensures forall edge :: edge in edges <==> edge.from in OutputPorts(s, e) && edge.to in PeersOf(e, edge.from)
  {
    var ps := OutputPorts(s, e);
    forall edge ensures edge in EdgesOf(ps, e) <==> edge.from in ps && edge.to in PeersOf(e, edge.from) {
      EdgesOfMembers(ps, e, edge);
    }
    EdgesOf(ps, e)
  }

  /** `connectPorts`: success when the server connects the ports or reports them connected already. */
  function ConnectPorts(s: Session, e: Engine, edge: Edge): (r: Step<bool>)
    ensures s.client.None? ==> r == Step(s, false)
    ensures s.client.Some? ==> r.session == s.(calls := s.calls + [Connect(edge)])
    ensures r.value <==> s.client.Some? && (e.connectResult(edge) == 0 || e.connectResult(edge) == EEXIST)
  {
    if s.client.None? then Step(s, false)
    else
      var result := e.connectResult(edge);
      Step(s.(calls := s.calls + [Connect(edge)]), result == 0 || result == EEXIST)
  }

  /** `disconnectPorts`: success only when the server reports 0. */
  function DisconnectPorts(s: Session, e: Engine, edge: Edge): (r: Step<bool>)
    ensures s.client.None? ==> r == Step(s, false)
    ensures s.client.Some? ==> r.session == s.(calls := s.calls + [Disconnect(edge)])
    ensures r.value <==> s.client.Some? && e.disconnectResult(edge) == 0
  {
    if s.client.None? then Step(s, false)
    else Step(s.(calls := s.calls + [Disconnect(edge)]), e.disconnectResult(edge) == 0)
  }

  /**
   * `clearAllConnections` as intended: list the edges without taking the lock a second time, then try each
   * once, counting the disconnects the server reports as done.
   */
  function ClearAllConnections(s: Session, e: Engine): (r: Step<nat>)
    ensures s.client.None? ==> r == Step(s, 0)
    ensures s.client.Some? ==> r.session == s.(calls := s.calls + DisconnectCalls(Connections(s, e)))
    ensures r.value == Cleared(Connections(s, e), e)
  {
    if s.client.None? then Step(s, 0)
    else
      var edges := Connections(s, e);
      Step(s.(calls := s.calls + DisconnectCalls(edges)), Cleared(edges, e))
  }

  /** `getJackInfo`: the sample rate, buffer size and client name, or `{}` without a client. */
  function InfoFields(e: Engine): seq<Field> {
    [Field("sample_rate", Num(e.sampleRate)), Field("buffer_size", Num(e.bufferSize)), Field("client_name", Str(e.clientName))]
  }

  function JackInfo(s: Session, e: Engine): (info: string)
    ensures s.client.None? ==> info == "{}"
    ensures s.client.Some? ==> info == Object(InfoFields(e))
  {
    if s.client.None? then (EmptyObject(); "{}") else Object(InfoFields(e))
  }

  // ---------------------------------------------------------------------------------------------
  // clearAllConnections as written

  /** A `std::mutex`, which is not recursive. */
  datatype Mutex = Free | Held

  /**
   * Taking the mutex. Locking a `std::mutex` the calling thread already holds is undefined behaviour; the
   * model reads it as the deadlock of a non-recursive mutex (`None`: the lock is never granted).
   */
  function Lock(m: Mutex): (r: Option<Mutex>)
    ensures r.Some? <==> m == Free
  {
    if m == Free then Some(Held) else None
  }

  /** `getConnections` called with the mutex in state `m`: it starts by taking the mutex. */
  function ConnectionsUnder(m: Mutex, s: Session, e: Engine): Option<seq<Edge>> {
    match Lock(m)
    case None => None
    case Some(_) => Some(Connections(s, e))
  }

  /**
   * `clearAllConnections` as written: it takes the mutex, and with a client calls `getConnections`, which
   * takes the same mutex again. That second lock is undefined behaviour, modelled as a deadlock: `None`.
   */
  function ClearAllAsWritten(s: Session, e: Engine): (r: Option<Step<nat>>)
    ensures s.client.Some? ==> r.None?
    ensures s.client.None? ==> r == Some(Step(s, 0))
  {
    match Lock(Free)
    case None => None
    case Some(held) =>
      if s.client.None? then Some(Step(s, 0))
      else
        match ConnectionsUnder(held, s, e)
        case None => None
        case Some(edges) => Some(Step(s.(calls := s.calls + DisconnectCalls(edges)), Cleared(edges, e)))
  }

  /**
   * As written, the call completes as intended only when there is no client; with one it relocks its own
   * mutex, which the model reads as a deadlock.
   */
  lemma ClearAllAsWrittenBlocks(s: Session, e: Engine)
    ensures ClearAllAsWritten(s, e).None? <==> s.client.Some?
    ensures s.client.None? ==> ClearAllAsWritten(s, e) == Some(ClearAllConnections(s, e))
  {
  }

  // ---------------------------------------------------------------------------------------------
  // Properties of the manager

  /** A second `initialize` after a successful one changes nothing. */
  lemma InitializeIdempotent(s: Session, e: Engine, e2: Engine)
    requires Initialize(s, e).value
    ensures Initialize(Initialize(s, e).session, e2) == Step(Initialize(s, e).session, true)
  {
  }

  /** A failing `initialize` leaves no client, having closed whatever it opened. */
  lemma InitializeLeavesNoHalfOpenClient(s: Session, e: Engine)
    requires s.client.None? && !Initialize(s, e).value
    ensures Initialize(s, e).session.client.None?
    ensures e.openResult.Some? ==> Initialize(s, e).session.calls == s.calls + [Open(ClientName), Activate, Close]
    ensures e.openResult.None? ==> Initialize(s, e).session.calls == s.calls + [Open(ClientName)]
  {
  }

  /** `shutdown` ends without a client and not running, from any state reachable from the start; repeating it is a no-op. */
  lemma ShutdownIdempotent(s: Session)
    requires Consistent(s)
    ensures Shutdown(s).client.None? && !Shutdown(s).running
    ensures Shutdown(Shutdown(s)) == Shutdown(s)
  {
  }

  /** The probe, the listing and the info query call nothing that changes the server. */
  lemma QueriesChangeNothing(s: Session, e: Engine)
    ensures IsRunning(s, e).session.calls == s.calls && IsRunning(s, e).session.client == s.client
    ensures IsRunning(IsRunning(s, e).session, e) == IsRunning(s, e)
  {
  }

  /** Clearing counts at most the listed edges, and all of them exactly when every disconnect succeeds. */
  lemma ClearAllBounded(s: Session, e: Engine)
    ensures ClearAllConnections(s, e).value <= |Connections(s, e)|
    ensures ClearAllConnections(s, e).value == |Connections(s, e)| <==>
      forall j :: 0 <= j < |Connections(s, e)| ==> e.disconnectResult(Connections(s, e)[j]) == 0
  {
    ClearedBound(Connections(s, e), e);
  }

  /** A running flag is only raised while a client is held, whatever the manager does. */
  lemma ManagerKeepsConsistent(s: Session, e: Engine, edge: Edge)
    requires Consistent(s)
    ensures Consistent(Initialize(s, e).session)
    ensures Consistent(Shutdown(s))
    ensures Consistent(IsRunning(s, e).session)
    ensures Consistent(ServerShutdown(s))
    ensures Consistent(ConnectPorts(s, e, edge).session)
    ensures Consistent(DisconnectPorts(s, e, edge).session)
    ensures Consistent(ClearAllConnections(s, e).session)
  {
  }
}
