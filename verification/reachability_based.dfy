/**
 The legacy flag-based backend (`GTNetMonReachabilityBased`). The platform
 reachability handle is represented by the flags it currently reports for the
 default route; every accessor reads that one snapshot.
 */
module ReachabilityBased {
  import opened Wrappers
  import CT = ConnectionTypes

  /** The reachability flags the classifier looks at. */
  datatype Flags = Flags(
    reachable: bool,
    isWWAN: bool,
    connectionRequired: bool,
    connectionOnDemand: bool,
    connectionOnTraffic: bool,
    interventionRequired: bool)

  /** The empty flag set (raw value 0). */
  const NoFlags := Flags(false, false, false, false, false, false)

  /** The backend's private classification of the default route. */
  datatype ReachabilityStatus = NotReachable | Wifi | Wwan

  /** A live `SCNetworkReachability` handle, seen through the flags it reports. */
  datatype Handle = Handle(flags: Flags)

  /** The backend's stored state: the optional handle and `isMonitoring`. */
  datatype State = State(reachability: Option<Handle>, isMonitoring: bool)

  /** Monitoring is only ever on while a handle is held. */
  predicate Valid(s: State) {
    s.isMonitoring ==> s.reachability.Some?
  }

  // ---------------------------------------------------------------------------
  // Classification

  /** `getReachabilityFlags()`: the handle's flags, or the empty set without a handle. */
  function GetReachabilityFlags(s: State): (f: Flags)
    ensures s.reachability.None? ==> f == NoFlags
    ensures s.reachability.Some? ==> f == s.reachability.value.flags
  {
    match s.reachability
    case None => NoFlags
    case Some(h) => h.flags
  }

  /**
   `getReachabilityStatus()` on a flag snapshot. Unreachable trumps every
   other flag; a reachable cellular route is `wwan` whatever the connection
   flags say; otherwise the route is `wifi` when no connection is required, or
   when one would be made on demand or on traffic without user intervention.
   */
  function Classify(f: Flags): (r: ReachabilityStatus)
    ensures !f.reachable ==> r == NotReachable
    ensures f.reachable && f.isWWAN ==> r == Wwan
    ensures f.reachable && !f.isWWAN && !f.connectionRequired ==> r == Wifi
    ensures f.reachable && !f.isWWAN && f.connectionRequired ==>
              (r == Wifi <==> (f.connectionOnDemand || f.connectionOnTraffic) && !f.interventionRequired)
    ensures r == Wwan ==> f.isWWAN
  {
    if !f.reachable then NotReachable
    else if f.isWWAN then Wwan
    else if !f.connectionRequired then Wifi
    else if (f.connectionOnDemand || f.connectionOnTraffic) && !f.interventionRequired then Wifi
    else NotReachable
  }

  /** Only the reachable flag matters when it is absent. */
  lemma UnreachableIgnoresOtherFlags(f: Flags, g: Flags)
    requires !f.reachable && !g.reachable
    ensures Classify(f) == Classify(g) == NotReachable
  {
  }

  /** On a reachable cellular route the four connection flags do not matter. */
  lemma WwanIgnoresConnectionFlags(f: Flags, g: Flags)
    requires f.reachable && f.isWWAN && g.reachable && g.isWWAN
    ensures Classify(f) == Classify(g) == Wwan
  {
  }

  /** `getReachabilityStatus()` on the backend's current handle. */
  function Status(s: State): (r: ReachabilityStatus)
    ensures s.reachability.None? ==> r == NotReachable
  {
    Classify(GetReachabilityFlags(s))
  }

  // ---------------------------------------------------------------------------
  // Accessors

  /** `connectionType`: `wifi` and `wwan` map to wifi and cellular, anything else to undefined. */
  function ConnectionType(s: State): (r: CT.ConnectionType)
    ensures r == CT.Wifi <==> Status(s) == Wifi
    ensures r == CT.Cellular <==> Status(s) == Wwan
    ensures r == CT.Undefined <==> Status(s) == NotReachable
  {
    var status := Status(s);
    if status == Wifi then CT.Wifi
    else if status == Wwan then CT.Cellular
    else CT.Undefined
  }

  /** `availableConnectionTypes`: this backend cannot list interfaces. */
  function AvailableConnectionTypes(s: State): (r: seq<CT.ConnectionType>)
    ensures |r| == 0
  {
    []
  }

  /** `isConnected`: the route is classified as reachable. */
  function IsConnected(s: State): (r: bool)
    ensures r <==> ConnectionType(s) != CT.Undefined
  {
    Status(s) != NotReachable
  }

  /** `isExpensive`: the route is cellular. */
  function IsExpensive(s: State): (r: bool)
    ensures r <==> ConnectionType(s) == CT.Cellular
    ensures r ==> IsConnected(s)
  {
    Status(s) == Wwan
  }

  /** The connection type is never `wiredEthernet` or `other` on this backend. */
  lemma ConnectionTypeRange(s: State)
    ensures ConnectionType(s) in {CT.Wifi, CT.Cellular, CT.Undefined}
  {
  }

  /** Without a handle every accessor gives its "off" default. */
  lemma OffDefaults(s: State)
    requires s.reachability.None?
    ensures ConnectionType(s) == CT.Undefined
    ensures AvailableConnectionTypes(s) == []
    ensures !IsConnected(s) && !IsExpensive(s)
  {
  }

  // ---------------------------------------------------------------------------
  // Handle and monitoring

  /**
   Replacing the handle: `setupReachability()` installs a newly created handle
   only when creation succeeded, and the internal status-change observer
   installs the handle a platform callback delivered, when there is one.
   Either way a missing handle leaves the state alone.
   */
  function UpdateHandle(s: State, h: Option<Handle>): (r: State)
    ensures r.isMonitoring == s.isMonitoring
    ensures h.Some? ==> r.reachability == h
    ensures h.None? ==> r == s
    ensures Valid(s) ==> Valid(r)
  {
    match h
    case None => s
    case Some(_) => s.(reachability := h)
  }

  /** `init()`: try to create a handle; monitoring stays off. */
  function Init(created: Option<Handle>): (r: State)
    ensures Valid(r) && !r.isMonitoring
    ensures r.reachability == created
  {
    UpdateHandle(State(None, false), created)
  }

  /**
   `startMonitoring()` on the handle present when it runs: nothing without a
   handle or when already monitoring; otherwise monitoring turns on exactly
   when the callback is registered and then the handle is scheduled on the
   run loop (scheduling is only tried after registration succeeded).
   */
  function Start(s: State, callbackSet: bool, scheduled: bool): (r: State)
    ensures r.reachability == s.reachability
    ensures s.reachability.None? || s.isMonitoring ==> r == s
    ensures s.reachability.Some? && !s.isMonitoring ==> (r.isMonitoring <==> callbackSet && scheduled)
    ensures Valid(s) ==> Valid(r)
  {
    if s.reachability.None? || s.isMonitoring then s
    else if callbackSet && scheduled then s.(isMonitoring := true)
    else s
  }

  /**
   `stopMonitoring()`: nothing unless monitoring with a handle; then the handle
   is unscheduled (it is kept) and monitoring is off.
   */
  function Stop(s: State): (r: State)
    ensures r.reachability == s.reachability
    ensures !(s.isMonitoring && s.reachability.Some?) ==> r == s
    ensures Valid(s) ==> Valid(r) && !r.isMonitoring
  {
    if s.isMonitoring && s.reachability.Some? then s.(isMonitoring := false)
    else s
  }

  /** Starting twice with the same platform outcomes is starting once. */
  lemma StartIdempotent(s: State, callbackSet: bool, scheduled: bool)
    ensures Start(Start(s, callbackSet, scheduled), callbackSet, scheduled) == Start(s, callbackSet, scheduled)
  {
  }

  /** A second stop changes nothing. */
  lemma StopIdempotent(s: State)
    ensures Stop(Stop(s)) == Stop(s)
  {
  }

  /**
   A handle that comes back reachable without needing a connection turns a
   disconnected backend into a connected one.
   */
  lemma BecomesConnected(s: State, h: Handle)
    requires !IsConnected(s)
    requires h.flags.reachable && !h.flags.connectionRequired
    ensures IsConnected(UpdateHandle(s, Some(h)))
  {
  }

  /** Monitoring does not change what the accessors report. */
  lemma AccessorsIgnoreMonitoring(s: State, callbackSet: bool, scheduled: bool)
    ensures Status(Start(s, callbackSet, scheduled)) == Status(s)
    ensures Status(Stop(s)) == Status(s)
  {
  }
}
