/**
 The facade (`GTNetMon`): it picks one backend when it is built and forwards
 every accessor and command to it, answering with the "off" defaults when it
 holds none.
 */
module NetMon {
  import opened Wrappers
  import CT = ConnectionTypes
  import NB = NetworkBased
  import RB = ReachabilityBased
  import P = Provider

  /** The facade's only state: the optional backend (`netInfo`). */
  datatype NetMon = NetMon(netInfo: Option<P.Backend>)

  /** A facade as construction leaves it: it holds a backend satisfying its invariant. */
  predicate Valid(m: NetMon) {
    m.netInfo.Some? && P.Valid(m.netInfo.value)
  }

  /**
   `init()`: the path backend when the platform has path monitoring (its own
   construction starts monitoring on `newMonitor`), the flag backend otherwise
   (its construction tries to create a handle, `created`, and does not start
   monitoring).
   */
  function Init(pathMonitorAvailable: bool, newMonitor: NB.Monitor, created: Option<RB.Handle>): (r: NetMon)
    ensures Valid(r)
    ensures r.netInfo.value.NetworkBased? <==> pathMonitorAvailable
    ensures IsMonitoring(r) <==> pathMonitorAvailable
  {
    if pathMonitorAvailable then NetMon(Some(P.NetworkBased(NB.Init(newMonitor))))
    else NetMon(Some(P.ReachabilityBased(RB.Init(created))))
  }

  function ConnectionType(m: NetMon): (r: CT.ConnectionType)
    ensures m.netInfo.None? ==> r == CT.Undefined
  {
    match m.netInfo
    case None => CT.Undefined
    case Some(b) => P.ConnectionType(b)
  }

  function AvailableConnectionTypes(m: NetMon): (r: seq<CT.ConnectionType>)
    ensures m.netInfo.None? ==> r == []
  {
    match m.netInfo
    case None => []
    case Some(b) => P.AvailableConnectionTypes(b)
  }

  function IsConnected(m: NetMon): (r: bool)
    ensures r ==> m.netInfo.Some?
  {
    match m.netInfo
    case None => false
    case Some(b) => P.IsConnected(b)
  }

  function IsExpensive(m: NetMon): (r: bool)
    ensures r ==> m.netInfo.Some?
    ensures r && m.netInfo.value.ReachabilityBased? ==> IsConnected(m)
  {
    match m.netInfo
    case None => false
    case Some(b) => P.IsExpensive(b)
  }

  function IsMonitoring(m: NetMon): (r: bool)
    ensures r ==> m.netInfo.Some?
    ensures r && Valid(m) ==> P.HasHandle(m.netInfo.value)
  {
    match m.netInfo
    case None => false
    case Some(b) => P.IsMonitoring(b)
  }

  /** Every accessor reports the backend's answer, or its "off" default without one. */
  lemma Delegation(m: NetMon)
    ensures ConnectionType(m) == if m.netInfo.Some? then P.ConnectionType(m.netInfo.value) else CT.Undefined
    ensures AvailableConnectionTypes(m) == if m.netInfo.Some? then P.AvailableConnectionTypes(m.netInfo.value) else []
    ensures IsConnected(m) == (m.netInfo.Some? && P.IsConnected(m.netInfo.value))
    ensures IsExpensive(m) == (m.netInfo.Some? && P.IsExpensive(m.netInfo.value))
    ensures IsMonitoring(m) == (m.netInfo.Some? && P.IsMonitoring(m.netInfo.value))
  {
  }

  /** `startMonitoring()`: forwarded to the backend; nothing else changes. */
  function StartMonitoring(m: NetMon, o: P.StartOutcome): (r: NetMon)
    ensures m.netInfo.None? ==> r == m
    ensures m.netInfo.Some? ==> r.netInfo == Some(P.Start(m.netInfo.value, o))
  {
    match m.netInfo
    case None => m
    case Some(b) => NetMon(Some(P.Start(b, o)))
  }

  /** `stopMonitoring()`: forwarded to the backend; nothing else changes. */
  function StopMonitoring(m: NetMon): (r: NetMon)
    ensures m.netInfo.None? ==> r == m
    ensures m.netInfo.Some? ==> r.netInfo == Some(P.Stop(m.netInfo.value))
  {
    match m.netInfo
    case None => m
    case Some(b) => NetMon(Some(P.Stop(b)))
  }

  /** A client's call on the facade's public commands. */
  datatype Command = Start(outcome: P.StartOutcome) | Stop

  /** Apply one command. */
  function Apply(m: NetMon, c: Command): NetMon {
    match c
    case Start(o) => StartMonitoring(m, o)
    case Stop => StopMonitoring(m)
  }

  /** Apply a sequence of commands, first to last. */
  function Run(m: NetMon, cmds: seq<Command>): NetMon
    decreases |cmds|
  {
    if cmds == [] then m else Run(Apply(m, cmds[0]), cmds[1..])
  }

  /** The two facades hold a backend of the same kind, or both hold none. */
  predicate SameChoice(m: NetMon, m': NetMon) {
    m.netInfo.Some? == m'.netInfo.Some?
    && (m.netInfo.Some? ==> m.netInfo.value.NetworkBased? == m'.netInfo.value.NetworkBased?)
  }

  /**
   No sequence of commands changes which backend the facade holds, or breaks
   its invariant: the choice made at construction is permanent.
   */
  lemma {:induction false} RunKeepsChoice(m: NetMon, cmds: seq<Command>)
    ensures SameChoice(m, Run(m, cmds))
    ensures Valid(m) ==> Valid(Run(m, cmds))
    decreases |cmds|
  {
    if cmds != [] {
      RunKeepsChoice(Apply(m, cmds[0]), cmds[1..]);
    }
  }

  /**
   After construction and any commands, the facade still holds its backend,
   so the "off" defaults of the facade itself are never what a client sees.
   */
  lemma DefaultsUnobservable(pathMonitorAvailable: bool, newMonitor: NB.Monitor, created: Option<RB.Handle>, cmds: seq<Command>)
    ensures var m := Run(Init(pathMonitorAvailable, newMonitor, created), cmds);
            Valid(m) && (m.netInfo.value.NetworkBased? <==> pathMonitorAvailable)
  {
    RunKeepsChoice(Init(pathMonitorAvailable, newMonitor, created), cmds);
  }

  /**
   On the path backend the facade is monitoring after every start and not
   monitoring after every stop.
   */
  lemma NetworkMonitoringFollowsCommands(m: NetMon, c: Command)
    requires Valid(m) && m.netInfo.value.NetworkBased?
    ensures IsMonitoring(Apply(m, c)) <==> c.Start?
  {
  }
}
