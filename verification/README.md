# GTNetMon in Dafny

GTNetMon tells an iOS app whether the device is online and which kind of connection
it uses (wifi, cellular, wired ethernet, other, undefined). It hides two backends
behind one facade:

- the path backend (`GTNetMonNetworkBased`) reads an `NWPathMonitor`'s current path;
- the flag backend (`GTNetMonReachabilityBased`) classifies the reachability flags of
  the default route.

The facade (`GTNetMon`) chooses one backend when it is built and forwards every
call to it.

This project models that logic with the OS calls taken out. Each platform object is
replaced by the snapshot it reports:

- a path monitor by its current path (`NetworkBased.Monitor`);
- a reachability handle by its current flags (`ReachabilityBased.Handle`).

Each accessor is a pure function of one snapshot. `startMonitoring` and
`stopMonitoring` are transitions on small state records. Platform outcomes are
parameters:

- the monitor a start would create;
- whether creating a reachability handle succeeded;
- whether registering the callback and scheduling on the run loop succeeded.

Files and modules:

- `wrappers.dfy` (`Wrappers`): `Option`, the model of Swift optionals.
- `string_representable.dfy` (`StringRepresentable`): the generic
  `casesCollection()` and `toString()` of `CaseIterable` enums.
- `connection_type.dfy` (`ConnectionTypes`): the `ConnectionType` enum, its string
  forms, and the matcher from interface-type names to cases.
- `network_based.dfy` (`NetworkBased`): the path backend.
- `reachability_based.dfy` (`ReachabilityBased`): the flag backend.
- `provider.dfy` (`Provider`): the backend protocol, as a datatype with one
  constructor per backend.
- `netmon.dfy` (`NetMon`): the facade.

Three behaviours of the code are easy to misread, and the model follows the code:

- The path backend's `connectionType` loop never breaks. So the LAST in-use
  interface whose type name is a case name decides the type, not the first.
- If no in-use interface matches, `connectionType` is `other`, not `undefined`.
  `undefined` is returned only when there is no monitor, or when an in-use
  interface's type is literally named "undefined".
- The path backend starts monitoring in its own `init`. A freshly built facade on
  that backend already reports `isMonitoring == true`.

## Model

| member | source | states |
|---|---|---|
| StringRepresentable.KeepEqual | Source/GTNetMon/GTCommon.swift:41 | filtering strings by equality keeps only copies of the target, and the result is non-empty exactly when the target occurs |
| StringRepresentable.KeepEqualCount | Source/GTNetMon/GTCommon.swift:41 | the filter keeps every copy of the target: its length is the target's multiplicity in the input |
| StringRepresentable.CasesCollection | Source/GTNetMon/GTCommon.swift:32-34 | `casesCollection()` has one string per case, and string i is the name of case i of `allCases` |
| StringRepresentable.CasesCollectionIgnoresSelf | Source/GTNetMon/GTCommon.swift:32-34 | `casesCollection()` gives the same list whichever case it is called on |
| StringRepresentable.NameIsCollected | Source/GTNetMon/GTCommon.swift:32-34 | the name of a listed case is among the collected strings |
| StringRepresentable.ToString | Source/GTNetMon/GTCommon.swift:40-42 | under the `CaseIterable` precondition, `toString()` never indexes an empty filter, returns the case's own name, and that name is in `casesCollection()` |
| ConnectionTypes.AllCases | GTNetMon/GTNetMon.swift:150-156 | `allCases` has exactly five cases, each case at its declaration position, with no repeats |
| ConnectionTypes.Listed | GTNetMon/GTNetMon.swift:150 | every connection type is among `allCases` |
| ConnectionTypes.CasesCollection | Source/GTNetMon/GTCommon.swift:32-34 | for `ConnectionType`, `casesCollection()` has five strings, in `allCases` order |
| ConnectionTypes.ToStringFromCollection | Source/GTNetMon/GTCommon.swift:40-42 | the library's filter-based `toString()` is total on connection types and equals the case name |
| ConnectionTypes.ToStringInjective | Source/GTNetMon/GTCommon.swift:41 | distinct connection types have distinct string forms |
| ConnectionTypes.Named | GTNetMon/GTNetMonNetworkBased.swift:78 | filtering a list of cases by string form keeps exactly the listed cases with that form |
| ConnectionTypes.NamedCount | GTNetMon/GTNetMonNetworkBased.swift:78 | filtering by a case's string form keeps every copy of that case: the length is the case's multiplicity |
| ConnectionTypes.NamedAtMostOne | GTNetMon/GTNetMonNetworkBased.swift:78 | at most one case of `allCases` has a given string form |
| ConnectionTypes.NamedDistinct | GTNetMon/GTNetMonNetworkBased.swift:78 | filtering a list without repeats gives a list without repeats |
| ConnectionTypes.CasesNamed | GTNetMon/GTNetMonNetworkBased.swift:78 | `allCases.filter { $0.toString() == name }` has at most one element, and that element's string form is `name` |
| ConnectionTypes.CasesNamedRoundTrip | GTNetMon/GTNetMonNetworkBased.swift:78 | filtering `allCases` by a case's own string form yields exactly that case |
| ConnectionTypes.FirstNamed | GTNetMon/GTNetMonNetworkBased.swift:78-81 | the search returns a listed case with the given string form, or none when no listed case has it |
| ConnectionTypes.FirstNamedIsFirst | GTNetMon/GTNetMonNetworkBased.swift:78-81 | when the k-th case is the first one with the given string form, the search returns exactly that case |
| ConnectionTypes.Match | GTNetMon/GTNetMonNetworkBased.swift:78-81 | a matched case's string form is the interface-type name |
| ConnectionTypes.MatchIsFilterHead | GTNetMon/GTNetMonNetworkBased.swift:78-81 | the matcher is `filtered[0]` when `filtered.count > 0`, and nothing otherwise |
| ConnectionTypes.MatchRoundTrip | GTNetMon/GTNetMonNetworkBased.swift:78-81 | matching a case's string form gives back that case |
| ConnectionTypes.MatchNone | GTNetMon/GTNetMonNetworkBased.swift:100-104 | a name matches nothing exactly when it is not in `casesCollection()`, that is, when no case has it as its string form |
| NetworkBased.LastHit | GTNetMon/GTNetMonNetworkBased.swift:76-83 | the backward search finds the last in-use, case-named interface among the first k, or reports that there is none |
| NetworkBased.ConnectionType | GTNetMon/GTNetMonNetworkBased.swift:72-86 | `undefined` without a monitor; with one, anything but `other` is the case named by some in-use interface, and `undefined` needs an in-use interface named "undefined" |
| NetworkBased.SingleInterface | GTNetMon/GTNetMonNetworkBased.swift:76-83 | a path that lists and uses one interface whose type is named after a case reports that case |
| NetworkBased.OtherWithoutHit | GTNetMon/GTNetMonNetworkBased.swift:74-85 | with a monitor and no in-use interface named after a case, the type is `other` |
| NetworkBased.LastHitWins | GTNetMon/GTNetMonNetworkBased.swift:76-83 | the last in-use interface whose name matches a case decides the type |
| NetworkBased.LastHitPrefix | GTNetMon/GTNetMonNetworkBased.swift:76-83 | appending an interface does not change the search over the earlier ones |
| NetworkBased.ScanStep | GTNetMon/GTNetMonNetworkBased.swift:76-83 | an extra interface that is unused or unmatched keeps the running type, and any other interface replaces it with its own case |
| NetworkBased.GetConnectionType | GTNetMon/GTNetMonNetworkBased.swift:72-86 | the source's overwrite-as-you-go loop computes the last-hit characterisation |
| NetworkBased.TypeOfInterface | GTNetMon/GTNetMonNetworkBased.swift:100-104 | an interface maps to the case carrying its type name, or to `other` when no case does |
| NetworkBased.TypesOf | GTNetMon/GTNetMonNetworkBased.swift:99-106 | the mapping has one entry per name, in order |
| NetworkBased.AvailableConnectionTypes | GTNetMon/GTNetMonNetworkBased.swift:95-109 | empty without a monitor; otherwise same length and order as the available interfaces, entry i the case named by interface i or `other` when there is none |
| NetworkBased.GetAvailableConnectionTypes | GTNetMon/GTNetMonNetworkBased.swift:95-109 | the source's append loop computes exactly `AvailableConnectionTypes` |
| NetworkBased.IsConnected | GTNetMon/GTNetMonNetworkBased.swift:25-28 | connected exactly when a monitor exists and its path status is satisfied |
| NetworkBased.IsExpensive | GTNetMon/GTNetMonNetworkBased.swift:30-32 | expensive exactly when a monitor exists and its path is flagged expensive |
| NetworkBased.OffDefaults | GTNetMon/GTNetMonNetworkBased.swift:17-32 | without a monitor: `undefined`, `[]`, not connected, not expensive |
| NetworkBased.Start | GTNetMon/GTNetMonNetworkBased.swift:113-132 | a no-op while monitoring; otherwise the new monitor is installed and monitoring is on; "monitor present iff monitoring" is preserved |
| NetworkBased.Stop | GTNetMon/GTNetMonNetworkBased.swift:136-142 | a no-op when not monitoring; on a valid state it drops the monitor and turns monitoring off |
| NetworkBased.Init | GTNetMon/GTNetMonNetworkBased.swift:48-50 | a freshly built backend holds its monitor and is monitoring |
| NetworkBased.StartIdempotent | GTNetMon/GTNetMonNetworkBased.swift:114 | a second start changes nothing, whatever monitor it would have created |
| NetworkBased.StopIdempotent | GTNetMon/GTNetMonNetworkBased.swift:137 | from every state, a second stop changes nothing |
| ReachabilityBased.GetReachabilityFlags | Sample/GTNetMonDemo/Pods/GTNetMon/GTNetMon/GTNetMonReachabilityBased.swift:116-122 | the handle's flags, or the empty flag set when there is no handle |
| ReachabilityBased.Classify | Sample/GTNetMonDemo/Pods/GTNetMon/GTNetMon/GTNetMonReachabilityBased.swift:134-151 | the full decision table. Not reachable means `notReachable`. Reachable and WWAN means `wwan`. Reachable, not WWAN and no connection required means `wifi`. If a connection is required, `wifi` exactly when it is on demand or on traffic without intervention, else `notReachable`. `wwan` needs the WWAN flag |
| ReachabilityBased.UnreachableIgnoresOtherFlags | Sample/GTNetMonDemo/Pods/GTNetMon/GTNetMon/GTNetMonReachabilityBased.swift:137-138 | without the reachable flag the status is `notReachable` whatever the other flags say |
| ReachabilityBased.WwanIgnoresConnectionFlags | Sample/GTNetMonDemo/Pods/GTNetMon/GTNetMon/GTNetMonReachabilityBased.swift:141-142 | a reachable WWAN route is `wwan` whatever the four connection flags say |
| ReachabilityBased.Status | Sample/GTNetMonDemo/Pods/GTNetMon/GTNetMon/GTNetMonReachabilityBased.swift:134-135 | without a handle the status is `notReachable` |
| ReachabilityBased.ConnectionType | Sample/GTNetMonDemo/Pods/GTNetMon/GTNetMon/GTNetMonReachabilityBased.swift:19-27 | `wifi` iff status `wifi`, `cellular` iff status `wwan`, `undefined` iff `notReachable` |
| ReachabilityBased.AvailableConnectionTypes | Sample/GTNetMonDemo/Pods/GTNetMon/GTNetMon/GTNetMonReachabilityBased.swift:29-31 | always the empty sequence |
| ReachabilityBased.IsConnected | Sample/GTNetMonDemo/Pods/GTNetMon/GTNetMon/GTNetMonReachabilityBased.swift:33-39 | connected iff the connection type is not `undefined` |
| ReachabilityBased.IsExpensive | Sample/GTNetMonDemo/Pods/GTNetMon/GTNetMon/GTNetMonReachabilityBased.swift:41-47 | expensive iff the connection type is `cellular`, and expensive implies connected |
| ReachabilityBased.ConnectionTypeRange | Sample/GTNetMonDemo/Pods/GTNetMon/GTNetMon/GTNetMonReachabilityBased.swift:19-27 | this backend never reports `wiredEthernet` or `other` |
| ReachabilityBased.OffDefaults | Sample/GTNetMonDemo/Pods/GTNetMon/GTNetMon/GTNetMonReachabilityBased.swift:116-117 | without a handle: `undefined`, `[]`, not connected, not expensive |
| ReachabilityBased.UpdateHandle | Sample/GTNetMonDemo/Pods/GTNetMon/GTNetMon/GTNetMonReachabilityBased.swift:92-107 | a delivered handle replaces the old one, a missing one changes nothing, monitoring is untouched and "monitoring implies a handle" is preserved |
| ReachabilityBased.Init | Sample/GTNetMonDemo/Pods/GTNetMon/GTNetMon/GTNetMonReachabilityBased.swift:69-75 | a new backend holds whatever handle creation produced and is not monitoring |
| ReachabilityBased.Start | Sample/GTNetMonDemo/Pods/GTNetMon/GTNetMon/GTNetMonReachabilityBased.swift:181-207 | a no-op without a handle or while monitoring; otherwise monitoring turns on iff registration and scheduling both succeed; the handle is kept |
| ReachabilityBased.Stop | Sample/GTNetMonDemo/Pods/GTNetMon/GTNetMon/GTNetMonReachabilityBased.swift:211-215 | a no-op unless monitoring with a handle; on a valid state monitoring ends; the handle is kept |
| ReachabilityBased.StartIdempotent | Sample/GTNetMonDemo/Pods/GTNetMon/GTNetMon/GTNetMonReachabilityBased.swift:186 | starting twice with the same platform outcomes is starting once |
| ReachabilityBased.StopIdempotent | Sample/GTNetMonDemo/Pods/GTNetMon/GTNetMon/GTNetMonReachabilityBased.swift:212 | from every state, a second stop changes nothing |
| ReachabilityBased.BecomesConnected | Sample/GTNetMonDemo/Pods/GTNetMon/GTNetMon/GTNetMonReachabilityBased.swift:166-176 | a delivered handle that is reachable without needing a connection turns a disconnected backend into a connected one |
| ReachabilityBased.AccessorsIgnoreMonitoring | Sample/GTNetMonDemo/Pods/GTNetMon/GTNetMon/GTNetMonReachabilityBased.swift:116-122 | starting or stopping does not change the reported status |
| Provider.MonitoringNeedsHandle | GTNetMon/GTNetMonProvider.swift:34 | on either backend, monitoring implies the platform handle is held |
| Provider.OffDefaults | GTNetMon/GTNetMonProvider.swift:19-31 | without its handle, either backend answers `undefined`, `[]`, `false`, `false` |
| Provider.Start | GTNetMon/GTNetMonProvider.swift:45 | start keeps the backend kind and its invariant, is a no-op while monitoring, and always leaves the path backend monitoring |
| Provider.Stop | GTNetMon/GTNetMonProvider.swift:53 | stop keeps the backend kind and its invariant, is a no-op when not monitoring, and leaves a valid backend not monitoring |
| Provider.StartIdempotent | GTNetMon/GTNetMonProvider.swift:45 | on either backend a repeated start is a no-op |
| Provider.StopIdempotent | GTNetMon/GTNetMonProvider.swift:53 | on either backend and from every state, a repeated stop is a no-op |
| NetMon.Init | GTNetMon/GTNetMon.swift:89-96 | construction installs exactly one valid backend. It is the path backend iff path monitoring is available. The facade is monitoring iff it got the path backend |
| NetMon.ConnectionType | GTNetMon/GTNetMon.swift:51-53 | `undefined` when there is no backend |
| NetMon.AvailableConnectionTypes | GTNetMon/GTNetMon.swift:56-58 | `[]` when there is no backend |
| NetMon.IsConnected | GTNetMon/GTNetMon.swift:61-63 | connected only with a backend |
| NetMon.IsExpensive | GTNetMon/GTNetMon.swift:69-71 | expensive only with a backend, and on the flag backend an expensive connection is always a connection |
| NetMon.IsMonitoring | GTNetMon/GTNetMon.swift:75-77 | monitoring only with a backend, and on a valid facade only while that backend holds its platform handle |
| NetMon.Delegation | GTNetMon/GTNetMon.swift:51-77 | each of the five accessors returns the backend's answer, or `undefined`, `[]`, `false`, `false`, `false` without one |
| NetMon.StartMonitoring | GTNetMon/GTNetMon.swift:117-119 | forwarded to the backend; without one nothing changes |
| NetMon.StopMonitoring | GTNetMon/GTNetMon.swift:128-130 | forwarded to the backend; without one nothing changes |
| NetMon.RunKeepsChoice | GTNetMon/GTNetMon.swift:83-101 | no sequence of start/stop calls changes which backend is held, or breaks its invariant |
| NetMon.DefaultsUnobservable | GTNetMon/GTNetMon.swift:89-96 | after construction and any commands, the backend chosen at construction is still there |
| NetMon.NetworkMonitoringFollowsCommands | GTNetMon/GTNetMon.swift:117-130 | on the path backend the facade monitors after every start and not after any stop |

## Left out

- Notifications are left out. This covers `NotificationCenter` observing and posting, and the redispatch onto the main queue. They are side effects with no value to check.
- Path-monitor internals are left out: `NWPathMonitor` creation, `start(queue:)`, `cancel()` and the update handler. A monitor is its current path, and creation is a parameter.
- The SystemConfiguration calls are left out: the `sockaddr_in` set-up, handle creation, callback registration, run-loop scheduling and unscheduling, and the unmanaged context pointer. Their outcomes are parameters.
- The asynchronous `setupReachability()` at the top of the flag backend's `startMonitoring` (GTNetMonReachabilityBased.swift:182-184) is concurrency. `Start` acts on the handle present when it runs. The deferred re-creation is `UpdateHandle`, which a caller may apply before or after.
- ReachabilityBased.UpdateHandle: a handle is only its flags, so the model cannot tell two handles apart. In the source, the deferred `setupReachability()` replaces `reachability` with a fresh handle that was never scheduled. A later `stopMonitoring` then unschedules that new handle (lines 212-213). The handle scheduled at line 202 stays on the run loop and keeps delivering callbacks, and line 168 puts it back into `reachability`. None of this can be expressed in the model.
- NetworkBased.ConnectionType: `getConnectionType` reads the live `monitor.currentPath` afresh on each iteration (GTNetMonNetworkBased.swift:76-77), so a path update during the loop could mix two paths. The model scans one snapshot of the path.
- ReachabilityBased.ConnectionType: the source reads the live flags twice, so two different snapshots could be seen. The model reads one snapshot per query.
- `deinit` of the three classes and the `shared` singleton's lazy initialisation are memory management.
- The demo app's view controller only renders text.

A backend's live state changes between queries. The model does not transition to a new path or new flags; callers build the state they want to query.
