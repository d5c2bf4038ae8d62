# drove-gateway: a verified model

drove-gateway keeps a load balancer in step with the apps that Drove controllers report. It polls the
controllers, stores each namespace's apps, and lets one worker turn triggers into reloads: either the
proxy loads a freshly rendered config, or HAProxy's runtime API is told call by call which servers to
add, change and remove. This project models that path in Dafny and proves what it keeps. `dafny verify
dfyconfig.toml` checks everything.

| file | what it models |
|---|---|
| `ReconcileProtocol.dfy` | pollers, startup fetch, signal handler and worker as a step machine with a queue of two, a restart gate and a pending bit; the worker's loop body as a class |
| `ControllerSync.dfy` | one namespace's poller and its controller: event log, sync point and stored version |
| `HaproxyRuntime.dfy` | HAProxy behind its control socket, and `reconcileBackend` with everything below it |
| `HaproxyFleet.dfy` | `ReconcileAllBackends`: aggregating hosts per backend and reconciling them all |
| `ReloadPath.dfy` | `reload()`: when the proxy loads a config, when the runtime API is enough, and why both end alike |
| `GatewayRuns.dfy` | the step machine with the gateway and its proxy behind it |
| `GoSlices.dfy`, `Aggregation.dfy` | `syncAppsAndVhosts` on slices that share arrays |
| `Rendering.dfy` | the merge across namespaces, whatever the order in which maps are walked |
| `SyncedData.dfy` | from reports over syncs and the merge to what can be rendered |
| `DataManager.dfy` | the store on the heap: deep clones, `createRenderingData` in place, snapshots |
| `StatePersistence.dfy` | the compare-and-swap flag around background saves |
| `StateBlocks.dfy` | `rewriteServerStateConfigBlocks`, a text transformer |
| `ServerState.dfy` | the two readers of "show servers state" text |
| `StateText.dfy` | text that shows the proxy's tables, and what the readers make of it |
| `Endpoints.dfy`, `StableNames.dfy` | endpoint text (brackets as in section 3.2.2 of RFC 3986) and generated names |
| `GoStrings.dfy` | the part of Go's `strings` and `strconv` that the text handling uses |

How to read it. A loop or an object that the program changes step by step is a method or a class here,
and its contract ties it to a function or predicate that says what is meant; lemmas then say what holds
of that meaning. Concurrency is a machine whose events are atomic steps; a run is any sequence of
enabled events, so a statement about `Run(apps, events)` covers every interleaving. Calls into HAProxy,
the reload command, file writes and timeouts are choices (`*`), and a failing call may fail before or
after its effect. Map iteration picks any remaining key.

What is assumed of HAProxy: a new server starts in maintenance; a server is deleted only from
maintenance; "ready" from maintenance brings it up; commands name existing servers. Which addresses it
takes is a parameter (`Proxy.accepts`): a name whose lookup failed may be refused. `Proxy.reliable` marks
a proxy that fails no command that is legal and names an accepted address; statements that need it say so.

What turned out not to hold, and exactly when it does:

- Groups need not share out an app's hosts. Both appends at `src/drove.go:668` and `src/drove.go:673`
  start from the same slice; if all of the app's old hosts fit into its spare room, the group's tail is
  overwritten. `Aggregation.OverwrittenGroup` is a sync of three reports in which a group loses its host to
  another group; `MergeKeepsPartitionIff` and `PartitionedThroughoutIff` give the condition, and without a
  routing tag (`WithoutRoutingTagExact`) it always holds. `SyncedData.OverwrittenHostIsRemoved` says what
  it costs: a template that lists the app's own hosts, as `examples/haproxy.tmpl` does, keeps the lost
  host's server, and the API pass, which goes by groups, removes it.
- A fast reload need not equal a render. The API pass takes or skips a group as a whole (empty, or not all
  HTTP), where a template picks the HTTP hosts one by one. `ReloadPath.Gateway.Reload` says exactly when
  both end alike: no HTTP host of a skipped group may be missing from the wanted ones of a backend that is
  reconciled (`LosesNoHost`), and the backends that only skipped groups name must already have what a
  render gives them (`SkippedAreServed`). `FastReloadLosesHost` and `EmptySkippedBackend` are inputs that
  fail the one and the other. By `PlainHTTPDataCanBeRendered` neither fails when all hosts are HTTP ones, no
  group is empty, addresses lack the separator (one character, no digit) and resolve to plain ones that the
  proxy accepts; that no group is empty every sync sees to (`SyncedData.RenderedDataAreGrouped`).
- The set of backend names, which `reload()` compares with the last known one, can depend on the order in
  which namespaces are walked (`BackendNamesCanDiffer`), and then it reloads the proxy for nothing. For
  synced data, and vhosts without the one-character separator, the set does not if and only if, with
  suffixes on, namespaces that share an app all have a routing tag or none has (`NameSetIsStableIff`). Each
  app's own names are stable exactly when those namespaces would name its backends alike, whatever the
  separator (`NamesAreStableIff`, `AgreeIff`).
- A lag without a trigger is possible after the restore at startup and there only (`LagImpliesDebt`);
  `StartupRestoreLagsIff` says when, and by `LagLasts` it stays until something is enqueued.
- The poller moves its sync point before the apps are fetched, so a fetch that fails is not made up for:
  the store can stay behind the controller with no event left to report it. `ControllerSync.StuckIff` says
  exactly when, `FailedFetchSticks` gives the run and `StuckLasts` what may end it; `LagIsReported` is what
  does hold in every run.
- A SIGUSR1 that falls between a successful probe and the clearing of the gate is forgotten
  (`SignalIsErasedIff`, `ErasedSignal`).
- The endpoint formatters differ on a bracketed address without a colon (`FormattersAgreeIff`), and
  server names can collide (`ServerNameCollision`).
- `reload()` in runtime API mode never returns nil while no backend is wanted (`Gateway.Reload`, under any
  failures), because `ReconcileAllBackends` then reports an error. That it succeeds whenever some backend
  is wanted is stated for `ReconcileAllBackends` alone, on a reliable proxy and for data that can be served
  (`Servable`).

Where code and documentation differ, the code is followed: with an empty realm every vhost is accepted
even if a suffix is set; the wait for a server to go down at `src/haproxy_runtime_api_client.go:359`
starts only when the look just before it failed, which it did not, so it never runs.

## Model

| member | source | states |
|---|---|---|
| ReconcileProtocol.TriggersAreConserved | src/reload.go:531-550 | In every interleaving, accepted triggers = successful reloads + queued triggers + the one held, and the queue never exceeds two. |
| ReconcileProtocol.NoLostReconcile | src/reload.go:495-553 | After any completed enqueue attempt, even one that found the queue full, a trigger is queued or held, or some `reload()` that started later has returned nil. |
| ReconcileProtocol.LagImpliesDebt | src/drove.go:237-325 | In every run, tables that differ from those read by the last successful reload imply a refresh on its way to its enqueue, a queued trigger or a held one, or a restore at startup with no reload started since. |
| ReconcileProtocol.SilentRestoreHappened | src/drove.go:401-401 | The flag behind that last case is true exactly when the run has a restore with no reload started after it. |
| ReconcileProtocol.StartupRestoreLagsIff | src/drove.go:401-401 | In any reachable state a restore leaves a lag with no debt if and only if it changes the tables against those of the last good reload and nothing was owed, queued or held. |
| ReconcileProtocol.LagLasts | src/reload.go:531-550 | Such a lag lasts until the next enqueue attempt: without one no reload runs and the proxy keeps what it had, whatever else happens. |
| ReconcileProtocol.StepKeepsInv | src/reload.go:495-553 | Every step of every goroutine keeps the protocol invariant (counts, covered attempts, covered lag). |
| ReconcileProtocol.RoundOwesIff | src/drove.go:279-325 | In every interleaving a round is on its way to its enqueue exactly when one of its handlers stored apps that were new or came from a new leader (at startup, or saw a new leader at all) and it has not enqueued since. |
| ReconcileProtocol.RoundRuns | src/drove.go:237-325 | Undisturbed, a round stores the fetched apps, and enqueues a trigger if they differed or came from a new leader, otherwise not. |
| ReconcileProtocol.JoinsWait | src/drove.go:303-314 | In every interleaving a round joins only when the handler of each of its namespaces has stored what it fetched or had nothing to store. |
| ReconcileProtocol.LastOkHappened | src/reload.go:546-550 | The recorded last success is a real one: a start and an end returning nil, with no other reload in between. |
| ReconcileProtocol.LastOkRead | src/reload.go:546-550 | The tables of the last successful reload are those that the store had at the moment when it started. |
| ReconcileProtocol.StartsAreGated | src/reload.go:540-546 | In every interleaving a reload starts with a trigger held and right after the worker has read the restart gate as clear; signals may come between the reading and the start. |
| ReconcileProtocol.TakesAreGated | src/reload.go:505-538 | In every interleaving a trigger is taken only right after a tick that read the gate as clear or a probe that the proxy answered. |
| ReconcileProtocol.GateIsSetIff | src/nixy.go:584-592 | In every interleaving the gate is set exactly when a SIGUSR1 or a SIGUSR2 has set it and the worker has not cleared it since. |
| ReconcileProtocol.SignalsHoldBack | src/reload.go:505-546 | From such a signal until the worker clears the gate, a trigger is taken only in a tick that read the gate before the signal, and a reload starts only if the second reading was before it. |
| ReconcileProtocol.SignalsInTurn | src/nixy.go:580-606 | SIGUSR2s are handled one at a time: gate, restored tables, enqueue, in that order. |
| ReconcileProtocol.Sigusr2Runs | src/nixy.go:586-606 | Undisturbed, a SIGUSR2 sets the gate, puts the restored tables in place and offers one trigger to a queue of two. |
| ReconcileProtocol.SignalIsErasedIff | src/reload.go:506-524 | A SIGUSR1 is wiped out by the next step of the worker exactly when it falls between a successful probe and the clearing of the gate. |
| ReconcileProtocol.ErasedSignal | src/reload.go:506-524 | A run in which that happens: the gate is clear after the second signal and the worker goes on to take a trigger. |
| ReconcileProtocol.ReconcileLoop.Tick | src/reload.go:502-551 | The loop body, on its variables, makes exactly the machine's worker steps of one undisturbed tick. |
| ReconcileProtocol.TickRuns | src/reload.go:502-551 | What such a tick does: a set gate that the proxy does not answer changes nothing; otherwise a trigger is used up exactly on success, and then the proxy has caught up. |
| ControllerSync.LagIsReported | src/drove.go:237-281 | In every run of a controller and its poller, a store that is behind will hear of it from an event not read yet, unless a fetch failed after its events had been read, a snapshot was restored, or nothing was stored so far. |
| ControllerSync.StuckIff | src/drove.go:158-158 | The sync point moves before the apps are fetched. Without restores the store stays behind with nothing left to report it exactly when every change has been read and there is none after which apps were fetched and stored. |
| ControllerSync.BehindIff | src/drove.go:279-284 | Without restores the stored apps are the controller's exactly when those have not changed since some fetch that was stored. |
| ControllerSync.StuckLasts | src/drove.go:237-285 | That lasts, however often the controller is polled, until another change, a new leader, a startup fetch or a restore. |
| ControllerSync.WakingHeals | src/drove.go:162-200 | A new leader, or a startup, does end it: the fetch that it sets off, once stored, brings the store up to date. |
| ControllerSync.PollFetchesIff | src/drove.go:246-284 | A poll fetches the apps exactly when it saw a new leader, or could read the events and an unread change was among them. |
| ControllerSync.FailedFetchSticks | src/drove.go:158-158 | It happens after any such run: the apps change, the poll reads the event, the fetch fails. |
| HaproxyRuntime.AreServerMapsIdentical | src/haproxy_runtime_api_client.go:275-290 | True exactly when both maps have the same names and each server matches; equal sizes plus one inclusion are enough. |
| HaproxyRuntime.HaproxyManager.ReconcileBackend | src/haproxy_runtime_api_client.go:246-302 | From any backend state: nil means that the names are exactly the reachable desired ones, under any failures; with no failed call, or with no call at all, each of them has the desired address and port, is ready, and is up or unchecked; a backend that is so already gets no call; calls split into a part that only makes and a part that only removes; each server is worked on once, by just the calls that its case asks for, and the pass succeeds exactly when all of this work did. |
| HaproxyRuntime.HaproxyManager.AddOrUpdateServers | src/haproxy_runtime_api_client.go:417-436 | Adds and updates touch desired servers only, never take a ready server away, and settle all of them when every call succeeds. |
| HaproxyRuntime.HaproxyManager.AddNewServer | src/haproxy_runtime_api_client.go:441-504 | First add; if it fails an existence check, and then an update of a server that turned out to be there, or one retry that does not set "ready": these calls and no others, with this outcome; success implies existence, and readiness only if no call failed. |
| HaproxyRuntime.HaproxyManager.RetryAdd | src/haproxy_runtime_api_client.go:468-493 | Success of the retry means that the server is there. |
| HaproxyRuntime.HaproxyManager.UpdateExistingServer | src/haproxy_runtime_api_client.go:506-554 | A matching server gets no call; otherwise success means that it matches afterwards. |
| HaproxyRuntime.HaproxyManager.RemoveStaleServer | src/haproxy_runtime_api_client.go:335-408 | Drain, maintenance, a look, and deletions up to the first that succeeds: these calls and no others; success, for which the drain does not matter, means gone; no other server of the backend changes in any call. |
| HaproxyRuntime.HaproxyManager.RemoveStaleServers | src/haproxy_runtime_api_client.go:332-415 | Every listed server that is not desired, and no other, is worked on, whatever failed before. |
| HaproxyRuntime.UpdateSettles | src/haproxy_runtime_api_client.go:526-548 | Address, health and state calls together make any server match, whatever state it was in. |
| HaproxyRuntime.NeverEmpty | src/haproxy_runtime_api_client.go:258-264 | Make before break: if the calls of the first part succeed, a backend that starts with a ready server and has something to keep has a ready server after every single call. |
| HaproxyRuntime.Proxy.Execute | src/haproxy_runtime_api_client.go:332-554 | The assumed proxy: a call may fail before or after its effect; adding needs a new name and an address that the proxy accepts, deleting needs maintenance. |
| HaproxyRuntime.HaproxyManager.BuildDesiredServerMap | src/haproxy_runtime_api_client.go:315-322 | The loop builds the desired map: resolved hosts under their stable names. |
| HaproxyRuntime.CurrentMapOfListing | src/haproxy_runtime_api_client.go:324-330 | The current map built from a full listing is the backend's table. |
| HaproxyFleet.AggregateHosts | src/haproxy_runtime_api_client.go:87-113 | In any order of apps and groups, a backend's list holds exactly the hosts of the non-empty all-HTTP groups that name it. |
| HaproxyFleet.GetServersStateWithBackend | src/haproxy_runtime_api_client.go:567-574 | The aggregated call lists every backend in full, or fails. |
| StateText.ShownTablesAreListed | src/haproxy_runtime_api_client.go:638-671 | From any text whose data lines show each server of the tables once, among blank lines and comments and in any order, the parser makes a full listing of every backend. |
| StateText.ReadServersState | src/haproxy_runtime_api_client.go:567-574 | So parsing the proxy's answer gives what the pass over all backends needs: a listing of each backend's table. |
| StateText.TablesRoundTrip | src/haproxy_runtime_api_client.go:678-711 | Tables of words and 64-bit ports, written as version 1 text, cut into lines and fields and parsed, come back as the same tables. |
| HaproxyFleet.ReconcileAllBackends | src/haproxy_runtime_api_client.go:79-244 | Only wanted backends are touched; unless a call on it fails, a backend with plain addresses that starts with a ready server has one after every call of the pass; nil means that every wanted backend has exactly its names, under any failures; on a reliable proxy each host asked for has a server of its name at its resolved address and port, ready and up or unchecked, and a second pass makes no call. |
| HaproxyFleet.WantsIff | src/haproxy_runtime_api_client.go:87-113 | Which host is wanted where, field by field: its group has http and https hosts only, its app a vhost, and the backend is the vhost, or vhost, separator and group where names carry the group. |
| HaproxyFleet.ServedMeans | src/haproxy_runtime_api_client.go:275-302 | What serving the wanted hosts comes to, field by field, and that a backend with just its names has no other server. |
| HaproxyFleet.ServesIffIdentical | src/haproxy_runtime_api_client.go:275-302 | Being served in terms of hosts is the same as being identical to the desired map. |
| HaproxyFleet.OneServerPerPlace | src/haproxy_runtime_api_client.go:315-322 | With a separator that no address contains and that no port runs into, the desired map has one server for each distinct address and port. |
| ReloadPath.Gateway.Reload | src/reload.go:73-165 | When a config load is needed; what is remembered; calls reach last known backends only, all of them running; no backend is taken down on the fast path; honest success, after which a reliable proxy serves the wanted hosts; the slow path renders; the fast path does if the API can render the data, and in general exactly when no host of a skipped group is lost and the skipped backends were right before; nothing to do when already there. |
| ReloadPath.Gateway.UpdateAndReloadConfig | src/reload.go:182-215 | Last known vhosts and backends change only on success, and then name what the proxy runs. |
| ReloadPath.Gateway.Reconcile | src/proxy_manager.go:122-131 | Writes the config unless reloads are disabled, then brings the wanted backends to their hosts. |
| ReloadPath.Gateway.RestartProxy | src/nixy.go:566-573 | An environment step: after a restart the proxy runs the last known backends if the file on disk does, which holds unless a reload has failed since. |
| ReloadPath.FastPathRefinesSlowPath | src/reload.go:101-149 | For data that the API can render, a gateway that reconciles over the API and one that renders and reloads end with the same backends, servers, addresses, ports and readiness. |
| GatewayRuns.System.CaughtUp | src/reload.go:495-553 | In every run of goroutines, gateway and restarting proxy, on a reliable proxy in runtime API mode: when nothing is owed, queued or held, no restore went unread and something was enqueued since the last restart, the proxy serves the hosts wanted by the tables that the store has now; in every walk if namespaces agree. |
| GatewayRuns.System.EndsReload | src/reload.go:546-550 | The worker's reload() ends as the gateway's does, on the data of the tables read when it started, and keeps what CaughtUp rests on, whether it succeeds or not. |
| GatewayRuns.System.Does | src/reload.go:495-553 | So does any other step of any goroutine. |
| GatewayRuns.System.Restarts | src/nixy.go:566-573 | So does a restart of the proxy, at any moment. |
| GatewayRuns.ServedInAnyWalk | src/reload.go:240-295 | Where namespaces agree, serving the render of one walk is serving that of any other. |
| ReloadPath.RendersLookTheSame | src/reload.go:316-326 | Any two renders of the same apps look the same to a client of the proxy. |
| ReloadPath.PassedIsRenderIff | src/haproxy_runtime_api_client.go:88-113 | After a pass that served the wanted hosts, the proxy runs a render if and only if each HTTP host of a skipped group has the place of a wanted one in a reconciled backend, and the backends that only skipped groups name already had what a render gives them. |
| ReloadPath.FastReloadLosesHost | src/haproxy_runtime_api_client.go:94-105 | One vhost with a group [HTTP h] and a group [HTTP k, other t]: after a successful fast reload k's server is gone, and the proxy does not run a render. |
| ReloadPath.EmptySkippedBackend | src/haproxy_runtime_api_client.go:94-105 | The other way to differ, on two vhosts, the second with a single group [HTTP k, other t]: no host is lost, but while that backend is empty it is skipped, and a render would fill it. |
| ReloadPath.HTTPHostsAreWanted | src/haproxy_runtime_api_client.go:94-105 | When all groups are all-HTTP, the hosts that the API pass wants in a backend are exactly those that a template shows in it. |
| ReloadPath.HTTPGroupsAreWanted | src/haproxy_runtime_api_client.go:94-105 | With HTTP hosts only and no empty group, every backend name is reconciled. |
| ReloadPath.PlainHTTPDataCanBeRendered | src/haproxy_runtime_api_client.go:87-113 | All-HTTP groups, none empty, addresses without the separator that resolve to plain ones which the proxy accepts: the API can then render the data, from any state of the proxy. |
| ReloadPath.Render | src/reload.go:328-401 | The abstract render, from the data alone: one backend per stable backend name, in it one ready server per stable server name of its HTTP hosts, whatever else is in their groups. |
| Aggregation.SyncAppsAndVhosts | src/drove.go:617-689 | The slice code computes `SyncAll` for the spare room that its slices happened to have; vhosts are the keys; all arrays are new. |
| Aggregation.HostsAreConserved | src/drove.go:631-689 | Each vhost has exactly the hosts of its accepted reports, later reports first, whatever was overwritten in groups. |
| Aggregation.StoredHosts | src/drove.go:622-689 | Field by field: a vhost is stored exactly when a report of it has hosts and there is no realm, or a trimmed part of the realm is the vhost, or the vhost ends in a suffix that is set; its hosts are those of just these reports, port types in lower case. |
| Aggregation.StoredGroups | src/drove.go:648-676 | And its groups are the lower-cased routing tag values of these reports, or the vhost for those without one. |
| Aggregation.GroupSizesAreRight | src/drove.go:660-683 | Every group has as many hosts as were reported for it and none is empty, even when contents were overwritten. |
| Aggregation.MergeKeepsPartitionIff | src/drove.go:665-673 | One merge keeps the groups a partition of the hosts if and only if the overwritten tail, if any, held the same hosts. |
| Aggregation.PartitionedThroughoutIff | src/drove.go:631-689 | A run keeps every app partitioned at every point if and only if each of its reports is harmless. |
| Aggregation.GroupsAreConserved | src/drove.go:660-683 | In a harmless run every group has exactly the hosts reported for it. |
| Aggregation.OneGroupIsExact | src/drove.go:648-683 | A vhost whose reports all fall into one group is right in content and order, whatever the capacities. |
| Aggregation.WithoutRoutingTagExact | src/drove.go:648-658 | So it is for every vhost when no routing tag is configured. |
| Aggregation.OverwrittenGroup | src/drove.go:668-673 | A sync of three reports of one vhost, tagged y, x, y with 1, 1 and 5 hosts, leaves group y without its first host and with that of x instead, so the groups are no partition. |
| Aggregation.AppendTwice | src/drove.go:668-673 | Two appends from one slice: the first result's tail is the second's when the second fits. |
| GoSlices.Append | src/drove.go:639-639 | Go's append on a shared array: in place when there is room, else a new array of any sufficient size. |
| Rendering.HostsAreConserved | src/reload.go:240-295 | In every walk each app and each of its groups has exactly the hosts that all namespaces together have for it. |
| Rendering.OrderDoesNotMatter | src/reload.go:240-295 | Any two walks give the same apps, host multisets, groups and group host multisets. |
| Rendering.RenderGathers | src/reload.go:248-293 | For one walk the hosts are those of its visits, in order. |
| Rendering.RenderStaysGrouped | src/reload.go:268-289 | If the groups of every stored app share out its hosts, so do those of every rendered app; likewise if none is empty. |
| Rendering.RenderedNames | src/reload.go:299-309 | The loop collects exactly the backend names of the groups of apps with a vhost. |
| Rendering.NamesAreStableIff | src/proxy_manager.go:172-182 | Every app gets the same backend names in all walks, which go namespace by namespace, if and only if the namespaces that share it would name its backends alike. |
| Rendering.AgreeIff | src/proxy_manager.go:172-182 | They do if they have the same vhost for it and, with suffixes on, all or none of them a routing tag; for data as a sync stores them and a separator, only then. |
| Rendering.BackendNamesAreStable | src/reload.go:299-309 | If those namespaces agree, the set of all backend names is the same for every walk. |
| Rendering.NameSetIsStableIff | src/reload.go:299-309 | The set of backend names that reload() compares with the last known one is the same for all walks if and only if namespaces that share an app all or none have a routing tag, with suffixes on; for data as a sync stores them and vhosts without the one-character separator. |
| Rendering.FirstVisitNames | src/reload.go:249-293 | The vhost and routing tag of a rendered app are those of the namespace visited first. |
| Rendering.LastTagWins | src/reload.go:254-284 | A rendered app and each of its groups have the tags of all namespaces; where they differ on one, the namespace visited last decides. |
| Rendering.BackendNamesCanDiffer | src/reload.go:249-249 | Without that agreement the namespace seen first decides whether names carry the group. |
| SyncedData.StoredAppsAreGrouped | src/drove.go:648-689 | What a sync stores has no empty group; if the sync was harmless, each app's groups share out its hosts. |
| SyncedData.RenderedDataAreGrouped | src/reload.go:240-295 | So it is with the data merged for a render, in every walk over namespaces that were each synced. |
| SyncedData.SyncedDataCanBeRendered | src/haproxy_runtime_api_client.go:87-113 | From reports to the proxy: synced HTTP data with plain addresses can be rendered over the runtime API, in every walk. |
| SyncedData.ByAppIsByGroup | examples/haproxy.tmpl:61-78 | Without suffixes, a template that lists the app's own hosts and one that lists those of its groups show the same, if groups share out hosts. |
| SyncedData.OverwrittenHostIsRemoved | examples/haproxy.tmpl:66-73 | After the overwriting sync above, a template that lists the app's own hosts shows the lost host, no group wants it, and a proxy that serves the wanted hosts has no server for it. |
| DataManager.DataManager.CreateRenderingData | src/reload.go:217-297 | On the heap, with shared slices and maps: nothing that existed is written to, the store's contents stay, the result shares nothing with it and equals the value-level merge of one walk. |
| DataManager.DataManager.RenderTwice | src/reload.go:217-297 | Two renders with no update between them have the same content, and are equal for the same walk; the second leaves the first alone. |
| DataManager.MergeApp | src/reload.go:250-290 | Joining hosts, tags and groups in place writes to the first app's own objects only and computes the merged app. |
| DataManager.MergeTags | src/reload.go:255-262 | Tags are written key by key into the first map, or into a new one when it is nil. |
| DataManager.MergeGroupEntries | src/reload.go:268-288 | Groups are merged or moved over in any order, with one outcome. |
| DataManager.CloneApp | src/datamanager.go:580-594 | A clone has the same contents and objects of its own, also where the original shared some. |
| DataManager.CloneNamespaces | src/datamanager.go:596-605 | So it is for a whole store; leader, vhosts and routing tag are carried over. |
| DataManager.DataManager.ExportSnapshot | src/datamanager.go:513-524 | A snapshot has the store's contents and shares nothing with it. |
| DataManager.DataManager.ImportSnapshotForNamespaces | src/datamanager.go:534-568 | Exactly the chosen namespaces that exist on both sides are restored (leader, apps, vhosts, not the routing tag); the rest is as before; the snapshot stays usable. |
| DataManager.DataManager.UpdateApps | src/datamanager.go:267-294 | Replaces one namespace's apps, or reports an unknown namespace and changes nothing. |
| DataManager.DataManager.RestoreUndoesUpdate | src/utils.go:231-259 | Importing a snapshot undoes any later update of a namespace's apps. |
| StatePersistence.AtMostOneWriter | src/utils.go:129-167 | In every interleaving at most one write to disk is running. |
| StatePersistence.FlagCoversTheWrite | src/utils.go:130-163 | The in-flight flag is set exactly while a save is open, from before its write starts until its result was received, past the timeout too. |
| StatePersistence.DiskFollowsAcceptance | src/utils.go:129-167 | Contents reach the disk in the order in which saves were accepted; the disk holds the last of them. |
| StatePersistence.SaveIsTakenIff | src/utils.go:130-132 | A save is taken exactly when no earlier one is open, else it is dropped. |
| StatePersistence.DiskIsLastWritten | src/utils.go:129-167 | From the events: the disk holds the content of the taken save whose write was the last to end well; a failed write leaves it as it was. |
| StatePersistence.SavesEnd | src/utils.go:133-163 | Undisturbed, a save comes to its end in time and past the timeout alike: the flag is free again and a good write is on disk. |
| StateBlocks.RewriteServerStateConfigBlocks | src/haproxy_config_state_blocks.go:114-170 | The single pass with moving indices computes the reference rewrite, errors with their line numbers included. |
| StateBlocks.RewriteAbsorbs | src/haproxy_config_state_blocks.go:114-170 | Absorption: rewriting a rewritten config gives what rewriting the original would, as whole text and count; with equal servers, idempotence. |
| StateBlocks.RewriteSucceedsIff | src/haproxy_config_state_blocks.go:119-162 | Success exactly when each begin marker names a backend and meets an end marker before any other begin marker. |
| StateBlocks.RewriteKeepsOutline | src/haproxy_config_state_blocks.go:119-169 | Lines outside blocks and all markers stay verbatim in order; the count is the number of begin markers, positive exactly when blocks are present. |
| StateBlocks.RewriteRoundTrip | src/haproxy_config_state_blocks.go:136-165 | After a rewrite each block reads back as exactly its backend's servers, in order, IPv6 included. |
| StateBlocks.BlocksInText | src/haproxy_config_state_blocks.go:119-165 | In the text: after a rewrite a line "#DROVE-SERVERS-BEGIN name", however indented, is followed by one line "server", name and endpoint for each server that the map has for that name, in order and indented alike, and then by the end marker. |
| StateBlocks.MarkerNames | src/haproxy_config_state_blocks.go:121-134 | Blanks around the marker, around the name and between them do not matter, and are not needed between them. |
| StateBlocks.MarkersInText | src/haproxy_config_state_blocks.go:155-162 | A line is a marker exactly when its trimmed text begins with the one word, or is the other. |
| StateBlocks.ServerLineIsNoMarker | src/haproxy_config_state_blocks.go:140-142 | No emitted line is a marker or contains a line break. |
| StateBlocks.ServerStateBlocksPresent | src/haproxy_config_state_blocks.go:304-318 | True exactly when some line is a begin marker. |
| Endpoints.ServerEndpointRoundTrip | src/haproxy_config_state_blocks.go:174-186 | A written endpoint reads back as the same address and port for bracket-free addresses, IPv6 included. |
| Endpoints.ServerEndpointText | src/haproxy_config_state_blocks.go:174-186 | The text: address, colon and port, with brackets around an address that has a colon and none yet, and no blanks. |
| Endpoints.RuntimeEndpointText | src/haproxy_runtime_api_client.go:556-562 | The text: brackets and blanks are dropped first, and brackets come back around a colon only. |
| Endpoints.AddressParsingIsRedundant | src/haproxy_config_state_blocks.go:174-186 | The IPv6 test never changes the text: every IPv6 literal is bracketed by the colon test anyway. |
| Endpoints.FormattersAgreeIff | src/haproxy_runtime_api_client.go:556-562 | The two formatters agree except on a bracketed address without a colon. |
| Endpoints.RuntimeEndpointRoundTripIffPlain | src/haproxy_runtime_api_client.go:556-562 | HAProxy reads back exactly the address asked for if and only if it is trimmed and unbracketed. |
| ServerState.ParseRuntimeServersWithBackend | src/haproxy_runtime_api_client.go:638-671 | The loop yields per backend the servers of its rows in order, or the error of the version line. |
| ServerState.ParseServerStateFileByBackend | src/haproxy_config_state_blocks.go:207-287 | The same for the file reader, with columns taken from the first header comment. |
| ServerState.ReadersAgree | src/haproxy_config_state_blocks.go:212-287 | On standard text both readers see the same servers per backend and in order, less those without a usable address and port. |
| ServerState.HeadedRow | src/haproxy_config_state_blocks.go:229-281 | From text: after the first comment, a row adds one server to the backend in the column last headed be_name, with name, address and port from those last headed srv_name, srv_addr and srv_port, if the address is no dash and the port is from 1 to 65535; a name that is not headed has its version 1 place. |
| ServerState.UnheadedRow | src/haproxy_config_state_blocks.go:207-209 | Without a comment before it a row has the version 1 columns. |
| ServerState.RealHeaderIsStandard | src/haproxy_runtime_api_client.go:673-675 | HAProxy's own version 1 header is a standard one, so the results on standard data are about its text. |
| ServerState.DataFollowVersion | src/haproxy_config_state_blocks.go:215-227 | Blank lines are skipped up to the version line, whose version must be supported; what follows are the data. |
| ServerState.VersionLine | src/haproxy_config_state_blocks.go:290-299 | A decimal number is the supported version exactly when it is 1. |
| ServerState.RuntimeRowIs | src/haproxy_runtime_api_client.go:678-711 | From text: backend, name, address, port and the two states of a runtime row are its fields 1, 3, 4, 18, 6 and 5; shorter rows are dropped. |
| ServerState.OperationalStates | src/haproxy_runtime_api_client.go:694-702 | Code 0 is down, 1 and 2 are up, 3 is stopping, and any other has no name. |
| ServerState.StateFileMirrorsRuntime | src/haproxy_runtime_api_client.go:584-621 | The state file written from the runtime's answer reads back as the runtime's usable servers. |
| ServerState.StateFileEnds | src/haproxy_runtime_api_client.go:602-605 | The written file ends in a newline, added only if the answer lacks it. |
| ServerState.ManagedBlocksMirrorRuntime | src/haproxy_config_state_blocks.go:46-109 | The whole way: the servers in a rewritten block are the backend's usable runtime servers. |
| StateText.BlocksMirrorTables | src/haproxy_config_state_blocks.go:46-109 | And from the proxy's tables: over answer, state file and rewritten config, a block holds exactly the usable servers of a full listing of its backend's table. |
| ServerState.FileServersClean | src/haproxy_config_state_blocks.go:255-279 | Entries read from the file are words, as rewriting needs. |
| StableNames.ServerNamesEqualIff | src/proxy_manager.go:185-189 | Server names are equal exactly when the ports are and the addresses look the same after sanitising; the separator may end in any character but a digit, or a minus where ports are negative. |
| StableNames.ServerNameInjective | src/proxy_manager.go:185-189 | With a one-character separator that is no digit and not in the addresses, names identify address and port; a minus too, unless a port is negative. |
| StableNames.ServerNameText | src/proxy_manager.go:185-189 | The text of a server name for an address without colons: prefix, address and port, set apart by separators. |
| StableNames.ServerNameOfColons | src/proxy_manager.go:185-189 | In an address with colons the separator stands for each of them. |
| StableNames.BackendNameText | src/proxy_manager.go:172-182 | The text of a backend name: the vhost, with separator and group where suffixes are on and a routing tag is configured. |
| StableNames.ServerNameCollision | src/proxy_manager.go:185-189 | Without that condition two addresses can share a name. |
| StableNames.SignedPortCollision | src/proxy_manager.go:185-189 | With a minus as the separator a negative port can share a name with its positive one. |
| StableNames.BackendNameInjective | src/proxy_manager.go:172-182 | With suffixes and a routing tag, backend names identify vhost and group when vhosts lack the separator. |

## Left out

- Aggregation.SyncAppsAndVhosts: does not model tags, which an app shares with its first group, nor the comparison with the stored apps, which `ReconcileProtocol` has by number.
- DataManager.CloneNamespaces: does not model a namespace's controller addresses and credentials; its config is the routing tag.
- DataManager.DataManager.ExportSnapshot: does not model last known vhosts and backends and the timestamps.
- DataManager.DataManager.ImportSnapshotForNamespaces: does not model timestamps and, when all namespaces are chosen, the restored last known vhosts and backends; the program itself always names namespaces.
- DataManager.DataManager.RestoreUndoesUpdate: the names of the unavailable namespaces are given; how polls arrive at them is not part of it.
- DataManager.DataManager.UpdateApps: does not model the timestamp that is written with the apps.
- GatewayRuns.System.EndsReload: puts all of reload()'s calls at its end; a restart in the middle of a reload counts as one before its calls.
- ControllerSync.LagIsReported: takes an app's change and its event in the controller's log as one step; events are counted, not timed.
- HaproxyFleet.GetServersStateWithBackend: hands over the tables; the text in between and its parser are in `StateText.ReadServersState`, which has the same conclusion for any answer that shows the tables.
- HaproxyFleet.ReconcileAllBackends: models the default aggregated mode; with it disabled, a failed state read is checked through the wrong variable at `src/haproxy_runtime_api_client.go:189`. The state file that is written on success is not part of the pass; `ServerState.StateFileMirrorsRuntime` says what it holds.
- ReloadPath.Gateway.RestartProxy: is a step of the environment; the cited lines say what signals such a step comes with.
- ReloadPath.FastPathRefinesSlowPath: is stated for data that the API can render (`ApiCanRender`); for other data see the exact condition in `ReloadPath.Gateway.Reload`.
- ServerState.ParseServerStateFileByBackend: starts from the file's text; open and read errors and the limit of 8 MB a line are not modelled.
- ServerState.ManagedBlocksMirrorRuntime: does not model file checks and the emptied blocks when there is no state file.
- StateText.BlocksMirrorTables: does not model file checks and the emptied blocks when there is no state file.
- StateText.ReadServersState: assumes an answer that shows the tables; error answers of the socket and a list of other columns are not modelled.
- The template: an abstract render stands for it, with the HTTP hosts of each group that names a backend, as `examples/haproxy.tmpl_header_based_routing` has them; `SyncedData.ByAppIsByGroup` relates templates that go by app. The sample templates put a literal `_` before the port and keep ':' in addresses, so their server names are the generated ones only for that separator and colon-free addresses.
- Aggregation.Accepted: lower-cases ASCII letters only.
- ReconcileProtocol.LagImpliesDebt: compares the stored apps only; a new leader or new vhosts stored without new apps are not part of it, and content is compared by number, not by value.
- HaproxyRuntime.Proxy.Execute: is an assumption about HAProxy; the cited lines only issue the calls.
- ReloadPath.Render: stands for the operator's template, which the cited lines execute; see the line on the template.
- ReconcileProtocol.StepKeepsInv: startup fetches run as a second round beside the polls and a restore may come at any time, which allows more runs than the program has.
- ReloadPath.Gateway.Reload: a proxy that restores server states on loading a config may come up with any servers in the rendered backends; what the state file holds is not traced through.
- ServerState.ReadersAgree: the decoding of admin states by the HAProxy client library is a parameter; the file reader's limit of 8 MB a line is not modelled.
- HaproxyRuntime.HaproxyManager.AddNewServer: the attribute strings sent with "add server" are not part of the command.
- Health checks that change a server's operational state between calls: the proxy changes on calls only.
- Name resolution is a fixed function; address parsing (`net.ParseIP`) is a parameter with the property that IPv6 literals have a colon and no bracket.
- How fast a slice grows: any sufficient capacity is allowed.
- NGINX and NGINX Plus, whose reconciliation lives in a library that is not part of this model.
- HTTP calls to the controllers, TLS, sockets, file permissions, signal delivery, health reports, metrics, logging, configuration parsing, sleep lengths and clock time.
- Plain getters and setters of the data manager, apart from `UpdateApps` and the snapshots; they add nothing beyond their bodies.
