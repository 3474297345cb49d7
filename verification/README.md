# A verified model of the WireGuard gateway daemon

The gateway runs many WireGuard networks on one machine. A manager sends it whole or partial configurations; the
daemon gives each network a namespace with a WireGuard interface, a veth pair on a common bridge and NAT rules, and
writes nginx tables that lead HTTP and HTTPS hosts to backends inside the networks. A watchdog polls the networks and
reports connection events and traffic. This project models four parts of it and proves what they promise:

1. **The reconciler** (`Kernel`, `Reconciler`, `Effects`, `NetworkEffect`, `Convergence`, `Incremental`, `Invariants`,
   `Liveness`, `Isolation`, `Stages`, `Gateway`, `Sessions`, `Config`). Every call into the system either fails and
   changes nothing, or has its obvious effect. Any call may fail. It is known exactly from which states a successful run
   converges and when a run without failing calls succeeds; a repeated run is quiet; a partial update equals a whole
   one; a failing run touches nothing that is not its own; what is stored after any sequence of requests, failures
   included, is known, and such a sequence can always be recovered from.
2. **The routing compiler** (`Addressing`, `Forwarding`, `Base32`, `Iptables`, `Cleaning`, `SavedText`, `Routing`,
   `EndToEnd`). Networks are compiled into ports, addresses, host-to-upstream tables and NAT text. An interpreter for
   what was compiled delivers requests exactly as the networks ask, and `EndToEnd` reads the same from the system after
   a run: from nginx's tables, interface addresses with their prefixes, and saved NAT text, which a reader parses.
3. **The watchdog** (`Watchdog`, `PeerHandling`, `Ticks`, `WatchdogEvents`, `WatchdogTraffic`, `TrafficReports`,
   `OverReporting`, `PaddedRuns`, `WatchdogFailures`). Ticks are cut into small steps; a send succeeds or fails as
   receivers come and go; a refused report restarts the watchdog with an empty cache. Claims are about whole runs, and
   where the code can fail one, the exact condition is proved.
4. **Traffic accounting** (`Traffic`). Four nested levels of totals with wrapping arithmetic.

Each class method is proved equal to a specification function of the state before it; the theorems are lemmas about
those functions, and what is asked for is said apart from them: from the proxy entries, the readings, the words of a
NAT rule. `Basics` and `Text` hold numbers, ordered iteration, decimal printing and splitting.

## How the system is modelled

- `Env.fault` says of each call, by number, whether it fails. `Env.order` is the order in which a hash set is
  iterated. `Env.dump` is what saving NAT rules prints for a restored text, `Env.wgText` the WireGuard configuration
  text of a network, and `Env.custom` the custom forwardings of the command line. All are arbitrary; theorems state
  what they need: `FaithfulDump` (saving a network's restored rules prints a text that cleans to them), `ListsSets`,
  `ListsOnce` and `Faultless`.
- `Sane` says that outer veth ends named after a port belong to that port's namespace (`Wired`), the bridge to none
  (`BridgeFree`), and that no interface anywhere has an address of the bridge network that belongs elsewhere. `Whole`
  says that each port has both ends of its veth pair or neither and that its WireGuard interface shows an MTU. Every
  run keeps both, whether or not it succeeds, if networks have their own addresses outside the bridge network
  (`AllOutside`); an empty system has both.
- `Receivers` says of each send of the watchdog, by number, whether a receiver exists.
- Counters and sums are 64-bit and wrap, as in a release build; mapped ports are 16-bit and wrap; addresses saturate
  at 32 bits. A clock reading is a number of nanoseconds since the epoch and may be negative.
- A public key is a number, a host its UTF-8 bytes, a `BTreeMap<Url, _>` a sequence of entries in key order.
- Each network has at least one address, and a peer with a handshake has an endpoint: the source unwraps both.

## What was found

- The network listening on port 1 gets the veth address 172.99.0.1, which is the bridge's own. Requests for its hosts
  reach the gateway instead. `Routing.RoutingPreserved` and `EndToEnd.AppliedServesConfigured` hold exactly when no
  backend for the host is listed by that network.
- Cleaning NAT text is not idempotent on lines that end in several carriage returns. `Cleaning.CleanIdempotent` gives
  the exact condition.
- Traffic can be reported twice. Reports exceed a device's counters in no run at all if and only if a refused send is
  never followed by an accepted one; over snapshots without repeated peers, if and only if after an accepted send and
  then a refused one at most one more is accepted (`OverReporting.NeverOverReportedExactly`,
  `OverReporting.NeverOverReportedDistinct`). Otherwise some run reports any growth twice
  (`PaddedRuns.LateSubscriberCountsTwice`).
- Growth of exactly 2^64 bytes in both directions together between two readings is lost. When every send is heard and
  the device is in every snapshot, nothing else is (`TrafficReports.ExactlyReported`).
- Cache and delivered events part exactly when a step forgets a connected peer: a refused report, a failed listing, or
  a refused report of that peer's death (`WatchdogEvents.AgreementExactly`). A restart then reports its connection
  again without a disconnect in between (`WatchdogFailures.RestartConnectsTwice`).
- A veth pair with one end missing, or a WireGuard interface without an MTU, blocks every update that configures its
  port; while no call fails nothing else does (`Liveness.ApplyProceeds`, `Liveness.PartialProceeds`). No run leaves one
  behind.
- If the bridge were a veth end into a surplus namespace, a successful update would delete it, and only then
  (`Convergence.ApplyConverges`).
- A dead peer whose report is refused is removed without ever being reported (`WatchdogEvents.BuryExactly`).
- A failing whole update has already replaced the stored configuration (`Gateway.RequestLeaves`).
- A whole update applies each network on its key, a partial one on the port its network says it listens on
  (`Incremental.EntryAsGiven`), so the two agree when those are the same.
- From mapping 65536 on, ports repeat and the first mapping with a port takes its traffic (`Iptables.ForwardPath`).
- The comment at `client/src/lib.rs:94-95` says that `None` leaves a network unchanged; the code removes it, and so
  does the model. The text at `src/lib.rs:13-17` says that surplus addresses are removed; `src/gateway.rs:242` only
  adds them, so address claims say that at least the wanted addresses are there.

## Model

| member | source | states |
|---|---|---|
| Config.OverridesCompose | client/src/lib.rs:84-91 | Two partial updates in a row equal the one in which the second one's entries override the first one's. |
| Config.AnyOrderOverrides | client/src/lib.rs:84-91 | In whatever order the entries of a partial update are entered, the result is the map-level override. |
| Config.EnterAllIsOverride | client/src/lib.rs:84-91 | Entering any list of a partial update's entries, repeats allowed, is overriding by just those entries. |
| Config.GatewayConfig.ApplyPartial | client/src/lib.rs:84-91 | The in-place loop of inserts and removals leaves the override of the old configuration. |
| Traffic.DeviceTraffic.Add | client/src/lib.rs:289-294 | Updates total and time entry of a device to the specified value. |
| Traffic.NetworkTraffic.Add | client/src/lib.rs:268-277 | Updates a network's total and its device, new or known, to the specified value. |
| Traffic.TrafficInfo.Add | client/src/lib.rs:247-255 | Updates grand total, end time and network, new or known, to the specified value. |
| Traffic.RecordBalanced | client/src/lib.rs:247-294 | After any additions the grand total is the sum over networks and each network total the sum over its devices, modulo the word size. |
| Traffic.DeviceAccount | client/src/lib.rs:289-294 | What was added to a device is exactly what its time entries hold plus what later entries with the same time overwrote. |
| Traffic.DeviceBoundsTimes | client/src/lib.rs:247-294 | An unwrapped device total is at least the sum of its time entries, and equal exactly when nothing was overwritten. |
| Traffic.RecordStopIsLatest | client/src/lib.rs:238-255 | The end time is the latest of the start time and every time entry of every device. |
| Base32.RoundTrip | src/types.rs:169-175 | Decoding the unpadded base32 text of RFC 4648 section 6 gives back the bytes, for every length. |
| Base32.Injective | src/types.rs:169-175 | Different byte strings have different base32 texts. |
| Addressing.NamesDiffer | src/types.rs:59-69 | Namespace, WireGuard and veth names of different ports differ. |
| Addressing.NamesSpelled | src/types.rs:15-18 | Namespace, WireGuard and veth names are spelled as fixed prefix and decimal port, and are equal exactly for equal ports. |
| Addressing.VethAddrExact | src/types.rs:71-75 | The veth address is 172.99.0.0 plus the port, stays in the bridge's /16 without saturating and tells the port; it is the bridge's own exactly for port 1. |
| Addressing.MappedPortLimits | src/types.rs:77-85 | Mapped ports are distinct exactly up to 65536 mappings and at least 2000 exactly up to 63536, and count up from 2000 until then. |
| Addressing.SocketsUniqueExactly | src/types.rs:71-85 | All sockets of a configuration are different exactly when no network has more than 65536 mappings. |
| Forwarding.UpstreamNameInjective | src/types.rs:163-203 | An upstream name tells its scheme and its host. |
| Forwarding.Forwarding.AddHttps | src/types.rs:163-182 | Appends the socket to the upstream of the host, creating both when new. |
| Forwarding.Forwarding.AddHttp | src/types.rs:184-203 | The same for http. |
| Forwarding.Forwarding.Add | src/types.rs:151-161 | Adds every mapping of a network, in order; each host then resolves, over https and over http, to what it did before and the sockets mapped for that scheme as it is spelled. |
| Forwarding.Forwarding.AddCustom | src/types.rs:207-213 | A custom socket goes to the https tables if its scheme reads "https", to the http tables if it reads "http"; other schemes change nothing. |
| Forwarding.PutAllMeaning | src/types.rs:151-213 | After any additions a host resolves to what it resolved to before, followed by exactly the added sockets listed for it. |
| Forwarding.PutAllSound | src/types.rs:163-203 | Additions keep every forwarded host served by a non-empty upstream of its own name, every upstream that of some host, and no two hosts on one upstream. |
| Forwarding.TablesMeaning | src/gateway.rs:339-348 | The tables of networks and custom sockets resolve each host to exactly the sockets listed for it under the scheme's spelling; only such hosts are forwarded, each to an upstream of its own. |
| Iptables.ForwardPath | templates/iptables.save.tera:6 | The first DNAT rule for the port of mapping i leads to the backend of mapping i modulo 65536, so to its own up to 65536 mappings. |
| Iptables.ReturnPath | templates/iptables.save.tera:7 | Whichever SNAT rule first matches the port of a mapping's backend, it rewrites the source to the network's first address. |
| Iptables.ReadRender | templates/iptables.save.tera:1-8 | Read word by word (chain, direction, protocol, port, target, dotted address), the rendered NAT text says exactly the rules it was rendered from. |
| Iptables.RenderInjective | templates/iptables.save.tera:1-8 | So different lists of rules have different texts. |
| Cleaning.CleanMeaning | src/gateway.rs:306-319 | Two texts clean to the same text exactly when their significant lines agree up to trailing packet counters. |
| Cleaning.CleanIdempotent | src/gateway.rs:306-319 | Cleaning a cleaned text again changes nothing, exactly when no significant line ends in a carriage return. |
| Cleaning.CleanIdempotentWithoutReturns | src/gateway.rs:306-319 | Cleaning is idempotent on every text without carriage returns. |
| Cleaning.ReturnsBreakIdempotence | src/gateway.rs:306-319 | A line ending in two carriage returns is cleaned differently the second time. |
| Cleaning.CleanIsBlind | src/gateway.rs:306-319 | Comments, blank lines and the values of trailing packet counters do not show in the cleaned text. |
| Cleaning.RenderIsClean | src/gateway.rs:325-327 | The rendered NAT text is left as it is by cleaning. |
| SavedText.CleanSpelled | src/gateway.rs:306-319 | Of a text with either kind of line end, the last one optional, cleaning drops blank lines and comments, zeroes trailing counters and leaves every other line as it is. |
| SavedText.FixCounted | src/gateway.rs:306-319 | A trailing counter becomes [0:0] whatever its digits. |
| Routing.RoutingPreserved | src/types.rs:151-213 | Through host table, upstream, socket, namespace and first DNAT rule a host reaches exactly the backends of its proxy entries, in order, each once, then the custom sockets, if and only if the network on port 1 lists none for it; networks have at most 63536 mappings, custom sockets lie outside the bridge network. |
| Routing.OwnAddressListed | src/types.rs:71-75 | A host has a configured backend behind the bridge's own address exactly when the network on port 1 lists one. |
| NetworkEffect.NetworkDone | src/gateway.rs:175-183 | A successful application of a network has exactly its declared effect on the system and no other. |
| NetworkEffect.EffectSettles | src/gateway.rs:185-336 | That effect leaves the network with its MTU, text, addresses, master, up flags and NAT rules. |
| NetworkEffect.EffectKeepsOthers | src/gateway.rs:175-183 | Applying a network leaves every settled network of another port settled. |
| NetworkEffect.SettledFixed | src/gateway.rs:175-183 | On a settled network the effect changes nothing. |
| NetworkEffect.NetworkQuiet | src/gateway.rs:185-336 | Applying a settled network issues no change, even when it fails half-way. |
| Convergence.ApplyDone | src/gateway.rs:63-112 | A successful run clears the surplus namespaces, applies each network's effect and serves the tables, whatever the iteration order and starting state. |
| Convergence.ApplyConverges | src/gateway.rs:63-112 | From any state a successful run leaves unmanaged namespaces untouched, and ends with exactly the wanted managed ones, all settled, the bridge up and nginx serving the tables, if and only if the bridge was no veth end into a namespace it deletes. |
| Convergence.ApplyIdempotent | src/gateway.rs:63-112 | Applying the same configuration again issues no change and rewrites identical text, also in runs that fail. |
| Incremental.ApplyKeepsWired | src/gateway.rs:63-112 | A successful run keeps outer veth ends tied to their own namespaces. |
| Incremental.EffectDropCommute | src/gateway.rs:123-141 | Applying a network and deleting other namespaces commute. |
| Incremental.EntriesDone | src/gateway.rs:130-141 | Handling the entries of a partial update one by one equals deleting all removed namespaces and then applying all given networks. |
| Incremental.SkipSettled | src/gateway.rs:103-105 | Applying all networks equals applying only those that the partial update brings, when the others are settled. |
| Incremental.IncrementalEqualsFull | src/gateway.rs:115-154 | From a converged system a successful partial update leaves the same system, tables and stored configuration as a successful whole update with it merged in. |
| Incremental.PartialConverges | src/gateway.rs:115-154 | After a successful partial update the system carries the merged configuration. |
| Incremental.IncrementalAfterApply | src/gateway.rs:63-154 | What that theorem needs of the system holds after every successful whole update. |
| Incremental.EntryAsGiven | src/gateway.rs:140-143 | A lone entry is applied on the port its network says it listens on and stored under its key, also where the two differ. |
| Invariants.ApplyKept | src/gateway.rs:63-112 | Every whole update, also one that fails anywhere, keeps the system sane and its veth pairs whole. |
| Invariants.PartialKept | src/gateway.rs:115-154 | So does every partial update. |
| Liveness.NetworkProceeds | src/gateway.rs:175-183 | While no call fails, a network is applied if and only if its port has both veth ends or neither and no WireGuard interface without an MTU. |
| Liveness.ApplyProceeds | src/gateway.rs:63-112 | From a sane state a whole update without failing calls succeeds if and only if that holds of every port it configures. |
| Liveness.PartialProceeds | src/gateway.rs:115-154 | From a sane state a keyed partial update without failing calls succeeds if and only if every port whose network it brings, new or known, is whole. |
| Isolation.NetworkWithin | src/gateway.rs:175-183 | Applying a network, wherever it fails, changes nothing but its own namespace and outer veth end. |
| Stages.NetworkStages | src/gateway.rs:175-183 | Wherever applying a network fails, the stages before are done and those after not begun: namespace, WireGuard, veth pair, NAT rules. |
| Isolation.NetworksStop | src/gateway.rs:103-105 | At the first network that fails, those before it have had their effect and those after it are untouched. |
| Isolation.ApplyWithin | src/gateway.rs:63-112 | A whole update, failed or not, changes only its own and surplus namespaces, their outer veth ends and the bridge; nginx files and reload follow in order, and only after all networks are in place. |
| Isolation.ClearedBeforeApplied | src/gateway.rs:82-105 | Wherever a whole update fails, no network is touched before all surplus namespaces are gone. |
| Isolation.PartialWithin | src/gateway.rs:115-154 | A partial update, failed or not, changes only what its entries may change and the bridge, and nginx only after all entries are handled. |
| Isolation.EffectFrame | src/gateway.rs:185-336 | Inside its namespace a network's effect leaves other links alone, removes no address, and keeps NAT rules that agree. |
| Isolation.EffectAddrs | src/gateway.rs:241-294 | Its own links gain exactly the addresses asked for. |
| EndToEnd.DeliversAsComputed | src/gateway.rs:262-336 | On a sane system carrying the networks each connection has one fate, read from all addresses and their prefixes, the bridge's links and saved NAT text, and it is the computed one. |
| EndToEnd.AppliedServesConfigured | src/gateway.rs:63-112 | After a successful run from any sane state the system, with its saved NAT text read as text, serves a host with exactly the configured backends, if and only if the network on port 1 lists none for it. |
| Gateway.Gateway.ApplyBridge | src/gateway.rs:158-172 | The method leaves system and result as specified, call by call, wherever a call fails. |
| Gateway.Gateway.ApplyAddr | src/gateway.rs:241-250 | The loop adds just the missing addresses, stopping at a failure. |
| Gateway.Gateway.ApplyWireguard | src/gateway.rs:198-238 | As specified, including the failure on a missing MTU. |
| Gateway.Gateway.ApplyVeth | src/gateway.rs:263-294 | As specified, wherever a call fails. |
| Gateway.Gateway.ApplyForwarding | src/gateway.rs:322-336 | As specified: NAT rules are restored only when the cleaned texts differ. |
| Gateway.Gateway.ApplyNetwork | src/gateway.rs:175-183 | As specified, stopping at the first failure; on success the system changes by exactly the network's effect. |
| Gateway.Gateway.ApplyNginx | src/gateway.rs:339-361 | The loops over networks and custom forwardings build the tables of the specification, which are written and loaded. |
| Gateway.Gateway.Apply | src/gateway.rs:63-112 | The stored configuration is the given one whether or not the run succeeds; the system is where the specified run leaves it, and on success carries the configuration. |
| Gateway.Gateway.ApplyPartial | src/gateway.rs:115-154 | Stored configuration and system are where the specified partial run leaves them, entry by entry; on success the override is stored. |
| Gateway.Gateway.Serve | src/websocket.rs:39-65 | Requests are handled one at a time and answered in order, up to a shutdown. |
| Gateway.EntriesPrefix | src/gateway.rs:130-141 | Whatever fails, a prefix of the entries in port order is stored, all of them on success. |
| Gateway.EntriesStop | src/gateway.rs:130-143 | A failed pass stops at the first failing entry: a removal is already stored then, a network is not. |
| Gateway.RequestLeaves | src/websocket.rs:45-59 | One request leaves stored its whole configuration, or a prefix of its entries, all of them when it succeeds. |
| Gateway.StoredOverRuns | src/websocket.rs:45-59 | Over any sequence of requests the stored configuration is reached through such steps, one per answer. |
| Gateway.MirrorAgrees | src/websocket.rs:45-59 | A client that mirrors its requests with the override has the stored configuration as long as every answer is a success. |
| Sessions.ServedKept | src/websocket.rs:39-65 | Any sequence of requests, whatever fails, keeps the system sane and its veth pairs whole. |
| Sessions.SessionConverges | src/websocket.rs:45-59 | After any requests that were all answered by success, starting with a whole update or in step, the system carries the stored configuration. |
| Sessions.AlwaysRecovers | src/websocket.rs:45-59 | After any requests, whatever failed, a whole update without failing calls is answered by success, stored, and converges. |
| Sessions.UpdatesRecover | src/websocket.rs:45-59 | So is a keyed partial update, and the override is stored. |
| Watchdog.AccountExactly | src/watchdog.rs:128-145 | The wrapped difference test records all growth except exactly 2^64 bytes in both directions together. |
| PeerHandling.ObserveExactly | src/watchdog.rs:104-196 | Handling a peer delivers the endpoint and connection events its reading calls for, up to the first refused one, records its growth either way, and caches the reading if and only if all are delivered. |
| PeerHandling.ConnectedExactly | src/watchdog.rs:112-122 | Handled without an error, a peer is cached as connected if and only if its last handshake is not in the future and less than 181 seconds ago. |
| Ticks.TicksRead | src/watchdog.rs:37-102 | The readings a run compares are those of the peer in every managed namespace of its port that could be read, in order. |
| Ticks.TickEnds | src/watchdog.rs:37-51 | Each tick attempts one report, of what was recorded, after its events; a refused report or a failed listing leaves an empty cache. |
| Watchdog.Watchdog.AccountTraffic | src/watchdog.rs:124-146 | Records the growth since the cached reading in the report under construction, as specified. |
| Watchdog.Watchdog.WatchdogPeer | src/watchdog.rs:104-196 | Cache, report and sends change as the specification of one peer says, at every point where a send can fail. |
| Watchdog.Watchdog.BuryDead | src/watchdog.rs:88-99 | Removes and reports dead peers as specified, stopping at the first refused report. |
| Watchdog.Watchdog.WatchdogNetns | src/watchdog.rs:53-102 | One network is the steps enter, one per peer, sweep. |
| Watchdog.Watchdog.WatchdogRun | src/watchdog.rs:37-51 | One tick is the steps of the namespaces that can be read, then the report; it gives up when listing or reporting fails. |
| Watchdog.Watchdog.Watch | src/lib.rs:181-191 | Any number of ticks, restarted with an empty cache after each failure, is the run that the theorems are about. |
| WatchdogEvents.ObserveKeeps | src/watchdog.rs:148-194 | Handling a peer keeps cache and delivered events in agreement for every peer of every port, failed sends included. |
| WatchdogEvents.CachedIsReported | src/watchdog.rs:148-194 | In every run a peer cached with a handshake was last reported as connected. |
| WatchdogEvents.NextExact | src/watchdog.rs:88-99 | While cache and events agree on a peer, one step keeps them in agreement if and only if it does not forget the peer. |
| WatchdogEvents.AgreementExactly | src/watchdog.rs:88-99 | In a run they agree on a peer after every step, with a disconnect between two connects, if and only if no step forgets the peer. |
| WatchdogEvents.ReportedIsCached | src/watchdog.rs:88-99 | In particular they agree without a restart and a refused report of a dead peer. |
| WatchdogEvents.BuryExactly | src/watchdog.rs:88-99 | Dead peers are reported in order up to the first refusal; that one is lost and the ones after it stay cached. |
| WatchdogEvents.NetworkShape | src/watchdog.rs:53-102 | After a successful sweep the network's cached peers are among the snapshot's, all of them if no peer failed; each removed one was reported once; other networks' entries are untouched. |
| WatchdogTraffic.OwnBounded | src/watchdog.rs:124-146 | Handling the device keeps reported and pending traffic within the growth of its counters. |
| WatchdogTraffic.NeverOverReported | src/watchdog.rs:124-194 | In a run in which no report is accepted in a tick after a refused event, the traffic accepted for a device never exceeds the growth of its counters. |
| TrafficReports.NeverOverReportedWhenSteady | src/websocket.rs:36-37 | So it does not when receivers come and go between ticks only. |
| OverReporting.NeverOverReportedExactly | src/watchdog.rs:124-194 | It exceeds the growth in no run at all if and only if a refused send is never followed by an accepted one. |
| OverReporting.NeverOverReportedDistinct | src/watchdog.rs:124-194 | Over snapshots with distinct networks and peers, it does in no run if and only if after an accepted and then a refused send at most one more is accepted. |
| PaddedRuns.RepeatedPeerCountsTwice | src/watchdog.rs:148-194 | After a refused send any later accepted one can carry the growth of a peer listed three times twice. |
| PaddedRuns.LateSubscriberCountsTwice | src/watchdog.rs:148-194 | With sends accepted, refused, accepted and accepted, however far apart, some run without repeated peers reports any growth twice. |
| TrafficReports.ExactlyReported | src/watchdog.rs:37-51 | When every send is heard and the device, once read, is in every snapshot read, what is reported is the growth but for full turns of the counters; it is all of it if and only if there is none. |
| TrafficReports.OneReportAgrees | src/watchdog.rs:37-51 | In the report of one tick with distinct network keys and distinct peers all four levels of totals agree. |
| WatchdogFailures.RestartConnectsTwice | src/lib.rs:181-191 | After a refused report the same connection is reported again without a disconnect. |

## Left out

- The wrapper calls, processes, files, TLS and JSON: each call is an effect or a failure.
- A call that fails after having taken part of its effect: calls fail without effect.
- Link kinds: `wireguard_exists`, `bridge_exists` and `veth_exists` find a link by its name alone.
- The text of the nginx files: `Gateway.ApplyNginx` hands over the tables that the templates print.
- Requests to nginx for hosts that no table has, and the server nginx would pick for them.
- Server ports from the 63537th mapping of a network on: they wrap to 0, which nginx refuses, so the routing theorems
  stop at 63536 mappings.
- The bridge network's own number and broadcast address as veth addresses (ports 0 and 65535), which routing treats as
  any other.
- The WireGuard configuration text: an arbitrary function of the network.
- IPv6 addresses: the NAT template prints address and port without brackets.
- Digits outside ASCII, which the packet counter pattern would accept too.
- Parsing of WireGuard statistics (`src/types.rs:225-322`): the watchdog reads another crate's types.
- Startup, command-line options and the connection to the manager: reconnecting, failed answers and queue lag are
  absent; a receiver exists or not at each send.
- The text of error messages: a result is a success or a failure.
- `add_ssh`: it does nothing, so the scheme counts as unrecognised.
- The unused `TRAFFIC_MINIMUM`.
- Aliasing between nested traffic maps: Traffic.NetworkTraffic.Add and Traffic.TrafficInfo.Add take the value out of
  its map, update it and put it back, since the map owns it.
