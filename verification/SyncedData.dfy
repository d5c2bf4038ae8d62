/** From the controllers' reports to the proxy: what the rendered data owe to the syncs behind them,
    and what becomes of a group whose hosts were overwritten. */
module SyncedData {
  import opened StableNames
  import opened HaproxyRuntime
  import opened HaproxyFleet
  import opened Rendering
  import opened ReloadPath
  import Aggregation

  /** The app stored for a vhost; its tags may be any. */
  ghost predicate Holds(app: App, vhost: string, e: Aggregation.Entry) {
    app.id == vhost && app.vhost == vhost && app.hosts == e.hosts && GroupHosts(app.groups) == e.groups
  }

  /** The reports that one namespace was last synced from, and how they went. */
  datatype Sync = Sync(cfg: Aggregation.DroveConfig, reports: seq<Aggregation.RawApp>, spares: seq<nat>)

  ghost predicate StoredFrom(ns: Namespace, sync: Sync) {
    && |sync.spares| == |sync.reports| && ns.routingTag == sync.cfg.routingTag
    && var entries := Aggregation.SyncAll(sync.cfg, sync.reports, sync.spares);
    ns.apps.Keys == entries.Keys && forall vhost :: vhost in ns.apps ==> Holds(ns.apps[vhost], vhost, entries[vhost])
  }

  /** Every namespace holds what a sync has put there. */
  ghost predicate Synced(store: Store, syncs: map<string, Sync>) {
    syncs.Keys == store.Keys && forall ns :: ns in store ==> StoredFrom(store[ns], syncs[ns])
  }

  ghost predicate Harmless(sync: Sync) {
    |sync.spares| == |sync.reports| && Aggregation.HarmlessRun(sync.cfg, sync.reports, sync.spares)
  }

  /** A sync leaves no group empty; a harmless one shares out the hosts of every app. */
  lemma StoredAppsAreGrouped(ns: Namespace, sync: Sync)
    requires StoredFrom(ns, sync)
    ensures AllFilled(ns.apps)
    ensures forall vhost :: vhost in ns.apps ==> ns.apps[vhost].vhost == vhost && ns.apps[vhost].groups != map[]
    ensures Harmless(sync) ==> AllShareOut(ns.apps)
  {
    hide Aggregation.SyncAll, Aggregation.HarmlessRun, Aggregation.Total;
    var entries := Aggregation.SyncAll(sync.cfg, sync.reports, sync.spares);
    if Harmless(sync) {
      Aggregation.PartitionedThroughoutIff(sync.cfg, sync.reports, sync.spares);
      var n := |sync.reports|;
      assert sync.reports[..n] == sync.reports && sync.spares[..n] == sync.spares;
      assert Aggregation.AllPartitioned(entries);
    }
    forall vhost | vhost in ns.apps
      ensures Filled(ns.apps[vhost]) && ns.apps[vhost].groups != map[]
      ensures Harmless(sync) ==> SharesOut(ns.apps[vhost])
    {
      Aggregation.GroupSizesAreRight(sync.cfg, sync.reports, sync.spares, vhost);
      var app, e := ns.apps[vhost], entries[vhost];
      assert forall g :: g in app.groups <==> g in GroupHosts(app.groups);
      assert forall g :: g in app.groups ==> app.groups[g].hosts == e.groups[g];
      var g :| g in e.groups;
      assert g in app.groups;
    }
  }

  /** So it is with the rendered data, and backend names depend on routing tags alone. */
  lemma RenderedDataAreGrouped(store: Store, syncs: map<string, Sync>, visits: seq<Visit>)
    requires Synced(store, syncs) && Walk(store, visits)
    ensures AllFilled(RenderOf(store, visits)) && SyncedShape(store)
    ensures (forall ns :: ns in syncs ==> Harmless(syncs[ns])) ==> AllShareOut(RenderOf(store, visits))
  {
    hide RenderAll, Walk, Harmless, StoredFrom, AllFilled, AllShareOut;
    forall ns | ns in store
      ensures AllFilled(store[ns].apps) && (Harmless(syncs[ns]) ==> AllShareOut(store[ns].apps))
      ensures forall id :: id in store[ns].apps ==> store[ns].apps[id].vhost == id && store[ns].apps[id].groups != map[]
    {
      StoredAppsAreGrouped(store[ns], syncs[ns]);
    }
    WalkStaysInStore(store, visits);
    RenderStaysGrouped(store, visits);
  }

  /** Synced HTTP data with plain addresses can always be rendered over the runtime API. */
  lemma SyncedDataCanBeRendered(cfg: NameConfig, resolve: string -> string, accepts: string -> bool,
      store: Store, syncs: map<string, Sync>, visits: seq<Visit>)
    requires Synced(store, syncs) && Walk(store, visits)
    requires AllHTTP(RenderOf(store, visits))
    requires var apps := RenderOf(store, visits);
      forall id, g :: id in apps && g in apps[id].groups ==>
        SeparatorFree(cfg, apps[id].groups[g].hosts) && Reachable(accepts, resolve, apps[id].groups[g].hosts)
    ensures ApiCanRender(cfg, resolve, accepts, RenderOf(store, visits))
  {
    hide RenderOf, Walk, Synced, AllHTTP, SeparatorFree, Reachable, ApiCanRender, AllFilled, AllShareOut, SyncedShape;
    RenderedDataAreGrouped(store, syncs, visits);
    PlainHTTPDataCanBeRendered(cfg, resolve, accepts, RenderOf(store, visits));
  }

  // ---- Templates by app and templates by group ----

  /** A template that has one backend a vhost lists the app's own hosts, not those of its groups. */
  ghost predicate ShowsByApp(apps: map<string, App>, b: string, h: Host) {
    exists id :: id in apps && apps[id].vhost == b && b != "" && h in apps[id].hosts && IsHTTP(h)
  }

  lemma {:induction false} TotalHas(groups: map<string, seq<Host>>, h: Host)
    ensures h in Aggregation.Total(groups) <==> exists g :: g in groups && h in groups[g]
    decreases |groups|
  {
    if groups != map[] {
      var g :| g in groups;
      Aggregation.TotalWithout(groups, g);
      Aggregation.SmallerMap(groups, g);
      TotalHas(groups - {g}, h);
      assert forall k :: k in groups <==> k == g || k in groups - {g};
      if h in Aggregation.Total(groups - {g}) {
        var k :| k in groups - {g} && h in (groups - {g})[k];
        assert h in groups[k];
      }
    }
  }

  lemma SharedOutHosts(app: App, h: Host)
    requires SharesOut(app)
    ensures h in app.hosts <==> exists g :: g in app.groups && h in app.groups[g].hosts
  {
    TotalHas(GroupHosts(app.groups), h);
    assert h in app.hosts <==> h in multiset(app.hosts);
    assert forall g :: g in app.groups <==> g in GroupHosts(app.groups);
    assert forall g :: g in app.groups ==> GroupHosts(app.groups)[g] == app.groups[g].hosts;
  }

  /** Without suffixes the two templates list the same hosts if the groups share out each app's
      hosts. The runtime API goes by groups. */
  lemma ByAppIsByGroup(cfg: NameConfig, apps: map<string, App>, b: string, h: Host)
    requires !cfg.includeRoutingTagSuffix && AllShareOut(apps)
    ensures ShowsByApp(apps, b, h) <==> Shows(cfg, apps, b, h)
  {
    hide IsHTTP, SharesOut;
    if id :| id in apps && apps[id].vhost == b && b != "" && h in apps[id].hosts && IsHTTP(h) {
      SharedOutHosts(apps[id], h);
      var g :| g in apps[id].groups && h in apps[id].groups[g].hosts;
      var key := (id, g);
      assert GivesHost(cfg, apps, key, b, h);
    }
    if key :| GivesHost(cfg, apps, key, b, h) {
      SharedOutHosts(apps[key.0], h);
      assert key.0 in apps && apps[key.0].vhost == b && h in apps[key.0].hosts;
    }
  }

  /** What an overwritten group costs: after the three reports of OverwrittenGroup the lost host is
      still one of the app's, so such a template keeps its server; but no group has it, and where
      the wanted hosts are served its server is gone. */
  lemma OverwrittenHostIsRemoved(cfg: NameConfig, resolve: string -> string, app: App, v: string, h: Host, k: Host,
      five: seq<Host>, t: Table)
    requires !cfg.includeRoutingTagSuffix && v != "" && |five| == 5 && h !in [k] + five && IsHTTP(h) &&
      IsHTTPHostGroup([k] + five)
    requires Holds(app, v, Aggregation.OverwrittenEntry(h, k, five))
    requires NoClash(cfg, [h, k] + five) && !(exists c :: c in [k] + five && SamePlace(h, c))
    requires forall hosts :: ListsWanted(cfg, map[v := app], v, hosts) ==> Serves(cfg, resolve, hosts, t)
    ensures ShowsByApp(map[v := app], v, h)
    ensures !Wants(cfg, map[v := app], v, h)
    ensures ServerName(cfg, h) !in t
  {
    hide ServerName, IsHTTP, Matches, SamePlace;
    var apps: map<string, App> := map[v := app];
    var groups := GroupHosts(app.groups);
    assert groups == map["y" := five + [k], "x" := [k]];
    assert app.groups.Keys == groups.Keys;
    assert app.groups["x"].hosts == groups["x"] == [k] && app.groups["y"].hosts == groups["y"] == five + [k];
    assert app.hosts == five + [k, h] && app.hosts[6] == h;
    assert forall c :: c in five + [k] <==> c in [k] + five;
    var wanted := five + [k];
    forall c ensures Wants(cfg, apps, v, c) <==> c in wanted {
      OverwrittenWants(cfg, apps, app, v, k, five, c);
    }
    assert wanted[5] == k;
    assert ListsWanted(cfg, apps, v, wanted);
    if ServerName(cfg, h) in t {
      var c :| c in wanted && ServerName(cfg, c) == ServerName(cfg, h);
      assert c in [h, k] + five && h in [h, k] + five;
      ClearMeansSamePlace(cfg, [h, k] + five, h, c);
      assert false;
    }
  }

  lemma OverwrittenWants(cfg: NameConfig, apps: map<string, App>, app: App, v: string, k: Host, five: seq<Host>,
      c: Host)
    requires !cfg.includeRoutingTagSuffix && apps == map[v := app] && app.vhost == v != "" && |five| == 5
    requires app.groups.Keys == {"x", "y"} && app.groups["x"].hosts == [k] && app.groups["y"].hosts == five + [k]
    requires IsHTTPHostGroup([k] + five)
    ensures Wants(cfg, apps, v, c) <==> c in five + [k]
  {
    hide IsHTTP;
    var all := [k] + five;
    forall i | 0 <= i < |five + [k]| ensures IsHTTP((five + [k])[i]) {
      assert (five + [k])[i] == if i < 5 then all[i + 1] else all[0];
    }
    assert IsHTTP(all[0]) && IsHTTPHostGroup([k]) && IsHTTPHostGroup(five + [k]);
    var x, y := (v, "x"), (v, "y");
    if c in five + [k] {
      assert FeedsHost(cfg, apps, y, v, c);
    }
  }
}
