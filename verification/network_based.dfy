/**
 The path-monitoring backend (`GTNetMonNetworkBased`). The platform path
 monitor is represented by the path it currently reports; every accessor reads
 that one snapshot.
 */
module NetworkBased {
  import opened Wrappers
  import CT = ConnectionTypes

  /** `NWPath.Status`. */
  datatype PathStatus = Satisfied | Unsatisfied | RequiresConnection

  /**
   A path snapshot: its status, its expensive flag, the type names of its
   available interfaces in the order the platform lists them, and the type
   names the path uses (`usesInterfaceType`).
   */
  datatype Path = Path(
    status: PathStatus,
    isExpensive: bool,
    availableInterfaces: seq<string>,
    usedInterfaceTypes: set<string>)

  /** A live `NWPathMonitor`, seen through the path it currently reports. */
  datatype Monitor = Monitor(currentPath: Path)

  /** The backend's stored state: the optional monitor and `isMonitoring`. */
  datatype State = State(monitor: Option<Monitor>, isMonitoring: bool)

  /** A monitor is held exactly while monitoring. */
  predicate Valid(s: State) {
    s.isMonitoring <==> s.monitor.Some?
  }

  // ---------------------------------------------------------------------------
  // Accessors

  /** Interface `i` is in use and its type name is the name of a case. */
  predicate Hit(p: Path, i: int)
    requires 0 <= i < |p.availableInterfaces|
  {
    p.availableInterfaces[i] in p.usedInterfaceTypes && CT.Match(p.availableInterfaces[i]).Some?
  }

  /** The index of the last hit among the first `k` interfaces, searched from the back. */
  function LastHit(p: Path, k: nat): (r: Option<nat>)
    requires k <= |p.availableInterfaces|
    ensures r.Some? ==> r.value < k && Hit(p, r.value)
    ensures r.Some? ==> forall j :: r.value < j < k ==> !Hit(p, j)
    ensures r.None? ==> forall j :: 0 <= j < k ==> !Hit(p, j)
  {
    if k == 0 then None
    else if Hit(p, k - 1) then Some(k - 1)
    else LastHit(p, k - 1)
  }

  /** The type reported after looking at the first `k` interfaces. */
  function TypeAfter(p: Path, k: nat): CT.ConnectionType
    requires k <= |p.availableInterfaces|
  {
    match LastHit(p, k)
    case None => CT.Other
    case Some(i) => TypeOfInterface(p.availableInterfaces[i])
  }

  /**
   `connectionType`: `undefined` without a monitor; otherwise the case named by
   the LAST in-use interface whose type name is a case name (the scan never
   stops early), and `other` when there is none.
   */
  function ConnectionType(s: State): (r: CT.ConnectionType)
    ensures s.monitor.None? ==> r == CT.Undefined
    ensures s.monitor.Some? && r != CT.Other ==>
              var p := s.monitor.value.currentPath;
              exists i :: 0 <= i < |p.availableInterfaces| && p.availableInterfaces[i] in p.usedInterfaceTypes
                          && CT.ToString(r) == p.availableInterfaces[i]
    ensures s.monitor.Some? && r == CT.Undefined ==> "undefined" in s.monitor.value.currentPath.usedInterfaceTypes
  {
    match s.monitor
    case None => CT.Undefined
    case Some(m) => TypeAfter(m.currentPath, |m.currentPath.availableInterfaces|)
  }

  /**
   A monitor whose path lists and uses a single interface, of a type named
   after case `c`, reports `c`.
   */
  lemma SingleInterface(s: State, c: CT.ConnectionType)
    requires s.monitor.Some?
    requires var p := s.monitor.value.currentPath;
             p.availableInterfaces == [CT.ToString(c)] && CT.ToString(c) in p.usedInterfaceTypes
    ensures ConnectionType(s) == c
  {
  }

  /** With a monitor and no in-use interface named after a case, the type is `other`. */
  lemma OtherWithoutHit(s: State)
    requires s.monitor.Some?
    requires var p := s.monitor.value.currentPath;
             forall i :: 0 <= i < |p.availableInterfaces| ==> !Hit(p, i)
    ensures ConnectionType(s) == CT.Other
  {
  }

  /** The last hit decides the type. */
  lemma LastHitWins(s: State, i: nat)
    requires s.monitor.Some?
    requires var p := s.monitor.value.currentPath;
             i < |p.availableInterfaces| && Hit(p, i)
             && forall j :: i < j < |p.availableInterfaces| ==> !Hit(p, j)
    ensures ConnectionType(s) == CT.Match(s.monitor.value.currentPath.availableInterfaces[i]).value
  {
  }

  /** `p` with one more interface, `name`, listed at the end. */
  function Extend(p: Path, name: string): (q: Path)
    ensures |q.availableInterfaces| == |p.availableInterfaces| + 1
  {
    p.(availableInterfaces := p.availableInterfaces + [name])
  }

  /** Listing one more interface leaves the earlier search unchanged. */
  lemma {:induction false} LastHitPrefix(p: Path, name: string, k: nat)
    requires k <= |p.availableInterfaces|
    ensures LastHit(Extend(p, name), k) == LastHit(p, k)
  {
    if k > 0 {
      assert Hit(Extend(p, name), k - 1) == Hit(p, k - 1);
      LastHitPrefix(p, name, k - 1);
    }
  }

  /**
   One step of the source's loop: an interface that is not in use, or whose
   type name is no case name, leaves the running type unchanged; any other
   replaces it with its own case.
   */
  lemma {:induction false} ScanStep(p: Path, name: string)
    ensures var q := Extend(p, name);
            var n := |q.availableInterfaces|;
            TypeAfter(q, n) ==
              if name in p.usedInterfaceTypes && CT.Match(name).Some? then CT.Match(name).value
              else TypeAfter(p, |p.availableInterfaces|)
  {
    var q := Extend(p, name);
    var n := |p.availableInterfaces|;
    assert q.availableInterfaces[n] == name;
    LastHitPrefix(p, name, n);
  }

  /**
   `getConnectionType()` as written: scan every available interface and keep
   overwriting the running type with each in-use match.
   */
  method GetConnectionType(s: State) returns (t: CT.ConnectionType)
    ensures t == ConnectionType(s)
  {
    if s.monitor.None? {
      return CT.Undefined;
    }
    var path := s.monitor.value.currentPath;
    t := CT.Other;
    var k := 0;
    while k < |path.availableInterfaces|
      invariant k <= |path.availableInterfaces|
      invariant t == TypeAfter(path, k)
    {
      var name := path.availableInterfaces[k];
      if name in path.usedInterfaceTypes {
        var filtered := CT.CasesNamed(name);
        CT.MatchIsFilterHead(name);
        if |filtered| > 0 {
          t := filtered[0];
        }
      }
      k := k + 1;
    }
  }

  /** One interface's type name, mapped to its case or to `other`. */
  function TypeOfInterface(name: string): (c: CT.ConnectionType)
    ensures CT.ToString(c) == name || (c == CT.Other && CT.Match(name).None?)
  {
    CT.Match(name).GetOr(CT.Other)
  }

  /** Every type name of `names`, mapped in order. */
  function TypesOf(names: seq<string>): (r: seq<CT.ConnectionType>)
    ensures |r| == |names|
    ensures forall i :: 0 <= i < |r| ==> r[i] == TypeOfInterface(names[i])
  {
    if names == [] then []
    else [TypeOfInterface(names[0])] + TypesOf(names[1..])
  }

  /**
   `availableConnectionTypes`: empty without a monitor; otherwise one entry per
   available interface (in use or not), in order: the case named by the
   interface's type, or `other`.
   */
  function AvailableConnectionTypes(s: State): (r: seq<CT.ConnectionType>)
    ensures s.monitor.None? ==> r == []
    ensures s.monitor.Some? ==>
              var names := s.monitor.value.currentPath.availableInterfaces;
              && |r| == |names|
              && forall i :: 0 <= i < |r| ==>
                   CT.ToString(r[i]) == names[i] || (r[i] == CT.Other && CT.Match(names[i]).None?)
  {
    match s.monitor
    case None => []
    case Some(m) => TypesOf(m.currentPath.availableInterfaces)
  }

  /** `getAvailableConnectionTypes()` as written: append one case per interface. */
  method GetAvailableConnectionTypes(s: State) returns (types: seq<CT.ConnectionType>)
    ensures types == AvailableConnectionTypes(s)
  {
    if s.monitor.None? {
      return [];
    }
    var names := s.monitor.value.currentPath.availableInterfaces;
    types := [];
    var k := 0;
    while k < |names|
      invariant k <= |names|
      invariant |types| == k
      invariant forall i :: 0 <= i < k ==> types[i] == TypeOfInterface(names[i])
    {
      var filtered := CT.CasesNamed(names[k]);
      CT.MatchIsFilterHead(names[k]);
      if |filtered| > 0 {
        types := types + [filtered[0]];
      } else {
        types := types + [CT.Other];
      }
      k := k + 1;
    }
  }

  /** `isConnected`: a monitor exists and its path is satisfied. */
  function IsConnected(s: State): (r: bool)
    ensures r <==> s.monitor.Some? && s.monitor.value.currentPath.status == Satisfied
  {
    match s.monitor
    case None => false
    case Some(m) => m.currentPath.status == Satisfied
  }

  /** `isExpensive`: the path's own flag, `false` without a monitor. */
  function IsExpensive(s: State): (r: bool)
    ensures r <==> s.monitor.Some? && s.monitor.value.currentPath.isExpensive
  {
    match s.monitor
    case None => false
    case Some(m) => m.currentPath.isExpensive
  }

  /** Without a monitor every accessor gives its "off" default. */
  lemma OffDefaults(s: State)
    requires s.monitor.None?
    ensures ConnectionType(s) == CT.Undefined
    ensures AvailableConnectionTypes(s) == []
    ensures !IsConnected(s) && !IsExpensive(s)
  {
  }

  // ---------------------------------------------------------------------------
  // Monitoring

  /**
   `startMonitoring()`: nothing when already monitoring; otherwise any stale
   monitor is cancelled and dropped, `created` (the newly made monitor) is
   installed, and monitoring is on.
   */
  function Start(s: State, created: Monitor): (r: State)
    ensures s.isMonitoring ==> r == s
    ensures !s.isMonitoring ==> r.monitor == Some(created) && r.isMonitoring
    ensures Valid(s) ==> Valid(r)
  {
    if s.isMonitoring then s
    else State(Some(created), true)
  }

  /**
   `stopMonitoring()`: nothing unless monitoring with a monitor; then the
   monitor is cancelled and dropped and monitoring is off.
   */
  function Stop(s: State): (r: State)
    ensures !s.isMonitoring ==> r == s
    ensures Valid(s) ==> Valid(r) && !r.isMonitoring && r.monitor.None?
  {
    if s.isMonitoring && s.monitor.Some? then State(None, false)
    else s
  }

  /** `init()`: construction starts monitoring straight away. */
  function Init(created: Monitor): (r: State)
    ensures Valid(r) && r.isMonitoring
    ensures r.monitor == Some(created)
  {
    Start(State(None, false), created)
  }

  /** A second start changes nothing, whatever monitor it would have created. */
  lemma StartIdempotent(s: State, m1: Monitor, m2: Monitor)
    ensures Start(Start(s, m1), m2) == Start(s, m1)
  {
  }

  /** A second stop changes nothing. */
  lemma StopIdempotent(s: State)
    ensures Stop(Stop(s)) == Stop(s)
  {
  }
}
