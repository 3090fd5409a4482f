/**
 The backend contract (`GTNetMonProvider`): five read accessors and two
 commands. The two implementations are the two constructors of `Backend`, and
 each member dispatches on the constructor.
 */
module Provider {
  import opened Wrappers
  import CT = ConnectionTypes
  import NB = NetworkBased
  import RB = ReachabilityBased

  datatype Backend = NetworkBased(net: NB.State) | ReachabilityBased(reach: RB.State)

  /**
   What the platform does when monitoring starts: the path monitor it would
   create, and whether the reachability callback registration and run-loop
   scheduling succeed. Each backend reads only its own part.
   */
  datatype StartOutcome = StartOutcome(newMonitor: NB.Monitor, callbackSet: bool, scheduled: bool)

  /** The invariant of whichever backend this is. */
  predicate Valid(b: Backend) {
    match b
    case NetworkBased(n) => NB.Valid(n)
    case ReachabilityBased(r) => RB.Valid(r)
  }

  /** The backend holds its platform handle (monitor or reachability reference). */
  predicate HasHandle(b: Backend) {
    match b
    case NetworkBased(n) => n.monitor.Some?
    case ReachabilityBased(r) => r.reachability.Some?
  }

  /** Both backends only monitor while they hold a handle. */
  lemma MonitoringNeedsHandle(b: Backend)
    requires Valid(b) && IsMonitoring(b)
    ensures HasHandle(b)
  {
  }

  function ConnectionType(b: Backend): CT.ConnectionType {
    match b
    case NetworkBased(n) => NB.ConnectionType(n)
    case ReachabilityBased(r) => RB.ConnectionType(r)
  }

  function AvailableConnectionTypes(b: Backend): seq<CT.ConnectionType> {
    match b
    case NetworkBased(n) => NB.AvailableConnectionTypes(n)
    case ReachabilityBased(r) => RB.AvailableConnectionTypes(r)
  }

  function IsConnected(b: Backend): bool {
    match b
    case NetworkBased(n) => NB.IsConnected(n)
    case ReachabilityBased(r) => RB.IsConnected(r)
  }

  function IsExpensive(b: Backend): bool {
    match b
    case NetworkBased(n) => NB.IsExpensive(n)
    case ReachabilityBased(r) => RB.IsExpensive(r)
  }

  function IsMonitoring(b: Backend): bool {
    match b
    case NetworkBased(n) => n.isMonitoring
    case ReachabilityBased(r) => r.isMonitoring
  }

  /** Without its handle, either backend answers with the "off" defaults. */
  lemma OffDefaults(b: Backend)
    requires !HasHandle(b)
    ensures ConnectionType(b) == CT.Undefined
    ensures AvailableConnectionTypes(b) == []
    ensures !IsConnected(b) && !IsExpensive(b)
  {
  }

  /** `startMonitoring()`: a no-op while monitoring; keeps the backend kind and its invariant. */
  function Start(b: Backend, o: StartOutcome): (r: Backend)
    ensures r.NetworkBased? == b.NetworkBased?
    ensures IsMonitoring(b) ==> r == b
    ensures Valid(b) ==> Valid(r)
    ensures b.NetworkBased? ==> IsMonitoring(r)
  {
    match b
    case NetworkBased(n) => NetworkBased(NB.Start(n, o.newMonitor))
    case ReachabilityBased(s) => ReachabilityBased(RB.Start(s, o.callbackSet, o.scheduled))
  }

  /** `stopMonitoring()`: a no-op unless monitoring; afterwards a valid backend is not monitoring. */
  function Stop(b: Backend): (r: Backend)
    ensures r.NetworkBased? == b.NetworkBased?
    ensures !IsMonitoring(b) ==> r == b
    ensures Valid(b) ==> Valid(r) && !IsMonitoring(r)
  {
    match b
    case NetworkBased(n) => NetworkBased(NB.Stop(n))
    case ReachabilityBased(s) => ReachabilityBased(RB.Stop(s))
  }

  /** Starting twice with the same platform behaviour is starting once. */
  lemma StartIdempotent(b: Backend, o: StartOutcome)
    ensures Start(Start(b, o), o) == Start(b, o)
  {
  }

  /** Stopping twice is stopping once. */
  lemma StopIdempotent(b: Backend)
    ensures Stop(Stop(b)) == Stop(b)
  {
  }
}
