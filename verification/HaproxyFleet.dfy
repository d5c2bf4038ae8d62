/** Reconciling every backend that the apps ask for. */
module HaproxyFleet {
  import opened GoStrings
  import opened Endpoints
  import opened StableNames
  import opened ServerState
  import opened HaproxyRuntime

  /** isHTTPHostGroup */
  predicate IsHTTPHostGroup(hosts: seq<Host>) {
    forall i :: 0 <= i < |hosts| ==> IsHTTP(hosts[i])
  }

  /** Groups that the runtime API path handles; others are skipped as a whole. */
  predicate Reconcilable(app: App, group: string) {
    app.vhost != "" && group in app.groups && app.groups[group].hosts != [] && IsHTTPHostGroup(app.groups[group].hosts)
  }

  /** An app's group, by their keys. */
  type GroupKey = (string, string)

  ghost predicate Feeds(cfg: NameConfig, apps: map<string, App>, key: GroupKey, b: string) {
    key.0 in apps && Reconcilable(apps[key.0], key.1) && GroupBackend(cfg, apps[key.0], key.1) == b
  }

  ghost predicate FeedsHost(cfg: NameConfig, apps: map<string, App>, key: GroupKey, b: string, h: Host) {
    Feeds(cfg, apps, key, b) && h in apps[key.0].groups[key.1].hosts
  }

  /** The hosts that a backend should serve. */
  ghost predicate Wants(cfg: NameConfig, apps: map<string, App>, b: string, h: Host) {
    exists key :: FeedsHost(cfg, apps, key, b, h)
  }

  /** The same, told from the data field by field: the group has HTTP hosts only, its app has a vhost,
      and the backend is named after the vhost, and after the group where names carry it. */
  ghost predicate Asks(cfg: NameConfig, apps: map<string, App>, id: string, g: string, b: string, h: Host) {
    && id in apps && g in apps[id].groups && apps[id].vhost != "" && h in apps[id].groups[g].hosts
    && (forall k :: k in apps[id].groups[g].hosts ==> k.portType == "http" || k.portType == "https")
    && b == (if cfg.includeRoutingTagSuffix && apps[id].routingTagKey != ""
             then apps[id].vhost + cfg.backendNameSeparator + g else apps[id].vhost)
  }

  lemma {:induction false} WantsIff(cfg: NameConfig, apps: map<string, App>, b: string, h: Host)
    ensures Wants(cfg, apps, b, h) <==> exists id, g :: Asks(cfg, apps, id, g, b, h)
  {
    if key :| FeedsHost(cfg, apps, key, b, h) {
      var hosts := apps[key.0].groups[key.1].hosts;
      forall k | k in hosts ensures k.portType == "http" || k.portType == "https" {
        var i :| 0 <= i < |hosts| && hosts[i] == k;
        assert IsHTTP(hosts[i]);
      }
      assert Asks(cfg, apps, key.0, key.1, b, h);
    }
    if id, g :| Asks(cfg, apps, id, g, b, h) {
      var key, hosts := (id, g), apps[id].groups[g].hosts;
      forall i | 0 <= i < |hosts| ensures IsHTTP(hosts[i]) {
        assert hosts[i] in hosts;
      }
      assert FeedsHost(cfg, apps, key, b, h);
    }
  }

  ghost predicate WantsBackend(cfg: NameConfig, apps: map<string, App>, b: string) {
    exists h :: Wants(cfg, apps, b, h)
  }

  ghost predicate WantsFrom(cfg: NameConfig, apps: map<string, App>, keys: set<GroupKey>, b: string, h: Host) {
    exists key :: key in keys && FeedsHost(cfg, apps, key, b, h)
  }

  /** The aggregate holds, per backend, exactly the hosts fed by the given groups. */
  ghost predicate Aggregates(cfg: NameConfig, apps: map<string, App>, keys: set<GroupKey>,
      m: map<string, seq<Host>>) {
    && (forall b :: b in m ==> m[b] != [])
    && (forall b, h :: h in Lookup(m, b) <==> WantsFrom(cfg, apps, keys, b, h))
  }

  /** The first loop of ReconcileAllBackends; apps and groups come in any order. */
  method AggregateHosts(cfg: NameConfig, apps: map<string, App>) returns (m: map<string, seq<Host>>)
    ensures forall b :: b in m ==> m[b] != [] && IsHTTPHostGroup(m[b])
    ensures IsAggregate(cfg, apps, m)
  {
    hide Reconcilable, GroupBackend, Lookup, Aggregates, FeedsHost;
    m := map[];
    ghost var keys: set<GroupKey> := {};
    AggregateNothing(cfg, apps);
    var ids := apps.Keys;
    while ids != {}
      invariant ids <= apps.Keys
      invariant Aggregates(cfg, apps, keys, m)
      invariant forall id, g :: id in apps && id !in ids && g in apps[id].groups ==> (id, g) in keys
      decreases |ids|
    {
      var id :| id in ids;
      var app := apps[id];
      var groups := app.groups.Keys;
      while groups != {}
        invariant groups <= app.groups.Keys
        invariant Aggregates(cfg, apps, keys, m)
        invariant forall i, g :: i in apps && i !in ids && g in apps[i].groups ==> (i, g) in keys
        invariant forall g :: g in app.groups && g !in groups ==> (id, g) in keys
        decreases |groups|
      {
        var g :| g in groups;
        AggregateGroup(cfg, apps, keys, m, (id, g));
        if Reconcilable(app, g) {
          var backend := GroupBackend(cfg, app, g);
          m := m[backend := Lookup(m, backend) + app.groups[g].hosts];
        }
        keys := keys + {(id, g)};
        groups := groups - {g};
      }
      ids := ids - {id};
    }
    AggregateAll(cfg, apps, keys, m);
  }

  lemma AggregateNothing(cfg: NameConfig, apps: map<string, App>)
    ensures Aggregates(cfg, apps, {}, map[])
  {
  }

  lemma AggregateGroup(cfg: NameConfig, apps: map<string, App>, keys: set<GroupKey>, m: map<string, seq<Host>>,
      key: GroupKey)
    requires Aggregates(cfg, apps, keys, m) && key.0 in apps && key.1 in apps[key.0].groups
    ensures var app := apps[key.0]; var b := GroupBackend(cfg, app, key.1);
      Aggregates(cfg, apps, keys + {key},
        if Reconcilable(app, key.1) then m[b := Lookup(m, b) + app.groups[key.1].hosts] else m)
  {
    hide GroupBackend, IsHTTPHostGroup;
    var app := apps[key.0];
    var backend := GroupBackend(cfg, app, key.1);
    var m' := if Reconcilable(app, key.1) then m[backend := Lookup(m, backend) + app.groups[key.1].hosts] else m;
    forall b, h ensures h in Lookup(m', b) <==> WantsFrom(cfg, apps, keys + {key}, b, h) {
      assert h in Lookup(m', b) <==> h in Lookup(m, b) || FeedsHost(cfg, apps, key, b, h);
      assert WantsFrom(cfg, apps, keys + {key}, b, h) <==>
        WantsFrom(cfg, apps, keys, b, h) || FeedsHost(cfg, apps, key, b, h);
    }
  }

  lemma AggregateAll(cfg: NameConfig, apps: map<string, App>, keys: set<GroupKey>, m: map<string, seq<Host>>)
    requires Aggregates(cfg, apps, keys, m)
    requires forall id, g :: id in apps && g in apps[id].groups ==> (id, g) in keys
    ensures forall b, h :: h in Lookup(m, b) <==> Wants(cfg, apps, b, h)
    ensures forall b :: b in m ==> m[b] != [] && IsHTTPHostGroup(m[b])
  {
    hide GroupBackend;
    forall b, h ensures h in Lookup(m, b) <==> Wants(cfg, apps, b, h) {
      if key :| FeedsHost(cfg, apps, key, b, h) {
        assert (key.0, key.1) in keys && key == (key.0, key.1);
      }
    }
    forall b | b in m ensures IsHTTPHostGroup(m[b]) {
      forall i | 0 <= i < |m[b]| ensures IsHTTP(m[b][i]) {
        assert m[b][i] in Lookup(m, b);
        var key :| key in keys && FeedsHost(cfg, apps, key, b, m[b][i]);
      }
    }
  }

  // ---- What it means to serve the wanted hosts ----

  function ServerName(cfg: NameConfig, h: Host): string {
    StableServerName(cfg, h.host, h.port)
  }

  /** No two wanted hosts of a backend fight over a server name. */
  ghost predicate NoClash(cfg: NameConfig, hosts: seq<Host>) {
    forall h, k :: h in hosts && k in hosts && ServerName(cfg, h) == ServerName(cfg, k) ==>
      h.host == k.host && h.port == k.port
  }

  /** A one-character separator that no address contains and that no port runs into. */
  predicate SeparatorFree(cfg: NameConfig, hosts: seq<Host>) {
    && |cfg.hostPortSeparator| == 1 && !IsDigit(cfg.hostPortSeparator[0])
    && forall i :: 0 <= i < |hosts| ==>
      cfg.hostPortSeparator[0] !in hosts[i].host && EndsPort(cfg.hostPortSeparator[0], hosts[i].port)
  }

  lemma SeparatorFreeNamesAreClear(cfg: NameConfig, hosts: seq<Host>)
    requires SeparatorFree(cfg, hosts)
    ensures NoClash(cfg, hosts)
  {
    hide StableServerName;
    forall h, k | h in hosts && k in hosts && ServerName(cfg, h) == ServerName(cfg, k)
      ensures h.host == k.host && h.port == k.port
    {
      ServerNameInjective(cfg, h.host, h.port, k.host, k.port);
    }
  }

  ghost function Places(hosts: seq<Host>): set<(string, Int32)> {
    set h | h in hosts :: (h.host, h.port)
  }

  /** Then the desired map has one server for each distinct address and port. */
  lemma {:induction false} OneServerPerPlace(cfg: NameConfig, resolve: string -> string, hosts: seq<Host>)
    requires SeparatorFree(cfg, hosts)
    ensures |DesiredMap(cfg, resolve, hosts)| == |Places(hosts)|
  {
    hide StableServerName, Resolved;
    if hosts != [] {
      var before, last := hosts[..|hosts| - 1], hosts[|hosts| - 1];
      assert hosts == before + [last];
      OneServerPerPlace(cfg, resolve, before);
      hide Places, SeparatorFree;
      LastNameIsOld(cfg, resolve, before, last);
      PlacesGrow(before, last);
      OneMoreKey(DesiredMap(cfg, resolve, before), ServerName(cfg, last), Resolved(resolve, last));
      OneMorePlace(Places(before), (last.host, last.port));
    }
  }

  lemma OneMoreKey(m: map<string, Host>, n: string, h: Host)
    ensures |m[n := h]| == |m| + if n in m then 0 else 1
  {
    assert m[n := h].Keys == m.Keys + {n};
    assert |m[n := h].Keys| == |m.Keys| + if n in m then 0 else 1;
  }

  lemma OneMorePlace(places: set<(string, Int32)>, place: (string, Int32))
    ensures |places + {place}| == |places| + if place in places then 0 else 1
  {
    assert place in places ==> places + {place} == places;
  }

  lemma PlacesGrow(before: seq<Host>, last: Host)
    ensures Places(before + [last]) == Places(before) + {(last.host, last.port)}
  {
    assert forall h :: h in before + [last] <==> h in before || h == last;
  }

  lemma LastNameIsOld(cfg: NameConfig, resolve: string -> string, before: seq<Host>, last: Host)
    requires SeparatorFree(cfg, before + [last])
    ensures ServerName(cfg, last) in DesiredMap(cfg, resolve, before) <==> (last.host, last.port) in Places(before)
  {
    hide StableServerName, DesiredMap;
    var n := ServerName(cfg, last);
    DesiredMapCovers(cfg, resolve, before);
    SeparatorFreeNamesAreClear(cfg, before + [last]);
    assert last in before + [last];
    if n in DesiredMap(cfg, resolve, before) {
      var h :| h in before && ServerName(cfg, h) == n;
      assert h in before + [last];
      assert (h.host, h.port) in Places(before);
    }
    if (last.host, last.port) in Places(before) {
      var h :| h in before && h.host == last.host && h.port == last.port;
      assert ServerName(cfg, h) == n;
    }
  }

  ghost predicate NamesOf(cfg: NameConfig, hosts: seq<Host>, names: set<string>) {
    && (forall h :: h in hosts ==> ServerName(cfg, h) in names)
    && (forall n :: n in names ==> exists h :: h in hosts && ServerName(cfg, h) == n)
  }

  /** One server a wanted name and no other; every wanted host is matched by its server. */
  ghost predicate Serves(cfg: NameConfig, resolve: string -> string, hosts: seq<Host>, t: Table) {
    && NamesOf(cfg, hosts, t.Keys)
    && forall h :: h in hosts ==> ServerName(cfg, h) in t && Matches(Resolved(resolve, h), t[ServerName(cfg, h)])
  }

  /** Once resolved, the addresses are plain and the proxy accepts them. */
  ghost predicate Reachable(accepts: string -> bool, resolve: string -> string, hosts: seq<Host>) {
    forall h :: h in hosts ==> PlainAddress(resolve(h.host)) && accepts(resolve(h.host))
  }

  lemma {:induction false} DesiredMapCovers(cfg: NameConfig, resolve: string -> string, hosts: seq<Host>)
    ensures NamesOf(cfg, hosts, DesiredMap(cfg, resolve, hosts).Keys)
    ensures forall n :: n in DesiredMap(cfg, resolve, hosts) ==>
      exists h :: h in hosts && ServerName(cfg, h) == n && DesiredMap(cfg, resolve, hosts)[n] == Resolved(resolve, h)
  {
    hide StableServerName, Resolved;
    if hosts != [] {
      var before, last := hosts[..|hosts| - 1], hosts[|hosts| - 1];
      DesiredMapCovers(cfg, resolve, before);
      assert forall h :: h in hosts <==> h in before || h == last;
      var m := DesiredMap(cfg, resolve, hosts);
      forall n | n in m
        ensures exists h :: h in hosts && ServerName(cfg, h) == n && m[n] == Resolved(resolve, h)
      {
        if n == ServerName(cfg, last) {
          assert last in hosts;
        } else {
          var h :| h in before && ServerName(cfg, h) == n &&
            DesiredMap(cfg, resolve, before)[n] == Resolved(resolve, h);
        }
      }
    }
  }

  /** Serving is the same as being identical to the desired map. */
  lemma {:induction false} ServesIffIdentical(cfg: NameConfig, resolve: string -> string, hosts: seq<Host>, t: Table)
    requires NoClash(cfg, hosts)
    ensures Serves(cfg, resolve, hosts, t) <==> Identical(DesiredMap(cfg, resolve, hosts), t)
  {
    hide DesiredMap, ServerName, Healthy;
    var m := DesiredMap(cfg, resolve, hosts);
    DesiredMapCovers(cfg, resolve, hosts);
    SameNames(cfg, hosts, m.Keys, t.Keys);
    if Identical(m, t) {
      forall h | h in hosts
        ensures ServerName(cfg, h) in t && Matches(Resolved(resolve, h), t[ServerName(cfg, h)])
      {
        var n := ServerName(cfg, h);
        var k :| k in hosts && ServerName(cfg, k) == n && m[n] == Resolved(resolve, k);
      }
    }
    if Serves(cfg, resolve, hosts, t) {
      forall n | n in m ensures Matches(m[n], t[n]) {
        var k :| k in hosts && ServerName(cfg, k) == n && m[n] == Resolved(resolve, k);
      }
    }
  }

  lemma SameNames(cfg: NameConfig, hosts: seq<Host>, a: set<string>, b: set<string>)
    requires NamesOf(cfg, hosts, a)
    ensures NamesOf(cfg, hosts, b) <==> a == b
  {
    hide ServerName;
    if NamesOf(cfg, hosts, b) {
      forall n ensures n in a <==> n in b {
        if n in a {
          var h :| h in hosts && ServerName(cfg, h) == n;
        }
        if n in b {
          var h :| h in hosts && ServerName(cfg, h) == n;
        }
      }
    }
  }

  /** What a pass over HTTP hosts aims at: all of them, plain when their addresses are. */
  lemma WantedTargets(client: Proxy, cfg: NameConfig, resolve: string -> string, hosts: seq<Host>, t: Table)
    requires IsHTTPHostGroup(hosts)
    ensures Targets(DesiredMap(cfg, resolve, hosts), t) == DesiredMap(cfg, resolve, hosts).Keys
    ensures NamesOf(cfg, hosts, DesiredMap(cfg, resolve, hosts).Keys)
    ensures Reachable(client.accepts, resolve, hosts) ==>
      PlainHosts(DesiredMap(cfg, resolve, hosts)) && TakesAll(client, DesiredMap(cfg, resolve, hosts))
  {
    hide DesiredMap, ServerName, PlainAddress, NamesOf, Proxy.Takes;
    var m := DesiredMap(cfg, resolve, hosts);
    DesiredMapCovers(cfg, resolve, hosts);
    forall n | n in m
      ensures IsHTTP(m[n])
      ensures Reachable(client.accepts, resolve, hosts) ==> PlainAddress(m[n].host) && client.Takes(m[n])
    {
      var h :| h in hosts && ServerName(cfg, h) == n && m[n] == Resolved(resolve, h);
      if Reachable(client.accepts, resolve, hosts) {
        PlainIsTaken(client, m[n]);
      }
    }
  }

  /** Only which hosts are wanted matters, not their order or number. */
  lemma SameHosts(cfg: NameConfig, resolve: string -> string, accepts: string -> bool, hosts: seq<Host>,
      hosts': seq<Host>, t: Table)
    requires forall h :: h in hosts <==> h in hosts'
    ensures NamesOf(cfg, hosts, t.Keys) <==> NamesOf(cfg, hosts', t.Keys)
    ensures Serves(cfg, resolve, hosts, t) <==> Serves(cfg, resolve, hosts', t)
    ensures NoClash(cfg, hosts) <==> NoClash(cfg, hosts')
    ensures Reachable(accepts, resolve, hosts) <==> Reachable(accepts, resolve, hosts')
  {
    hide ServerName, PlainAddress, Matches;
  }

  // ---- The pass over all backends ----

  /** Any order that lists a table in full. */
  method ListServers(t: Table) returns (servers: seq<RuntimeServer>)
    requires forall n :: n in t ==> t[n].name == n
    ensures Lists(servers, t)
  {
    servers := [];
    var todo := t.Keys;
    while todo != {}
      invariant todo <= t.Keys
      invariant DistinctNames(servers)
      invariant forall i :: 0 <= i < |servers| ==>
        servers[i].name in t && servers[i].name !in todo && t[servers[i].name] == servers[i]
      invariant forall n :: n in t && n !in todo ==> exists i :: 0 <= i < |servers| && servers[i].name == n
      decreases |todo|
    {
      var n :| n in todo;
      ghost var before := servers;
      servers := servers + [t[n]];
      todo := todo - {n};
      forall k | k in t && k !in todo ensures exists i :: 0 <= i < |servers| && servers[i].name == k {
        if k == n {
          assert servers[|before|].name == n;
        } else {
          var i :| 0 <= i < |before| && before[i].name == k;
          assert servers[i].name == k;
        }
      }
    }
  }

  /** getServersStateWithBackend: one aggregated call for all backends. */
  method GetServersStateWithBackend(client: Proxy) returns (r: Option<map<string, seq<RuntimeServer>>>)
    requires client.Valid()
    ensures r.Some? ==> forall b :: Lists(Lookup(r.value, b), client.Servers(b))
    ensures client.reliable ==> r.Some?
  {
    var fails := *;
    if fails && !client.reliable {
      return None;
    }
    var result: map<string, seq<RuntimeServer>> := map[];
    var todo := client.backends.Keys;
    while todo != {}
      invariant todo <= client.backends.Keys && result.Keys == client.backends.Keys - todo
      invariant forall b :: b in result ==> Lists(result[b], client.backends[b])
      decreases |todo|
    {
      var b :| b in todo;
      var servers := ListServers(client.backends[b]);
      result := result[b := servers];
      todo := todo - {b};
    }
    return Some(result);
  }

  ghost predicate PlainResolved(resolve: string -> string, hosts: seq<Host>) {
    forall h :: h in hosts ==> PlainAddress(resolve(h.host))
  }

  lemma DesiredIsPlain(cfg: NameConfig, resolve: string -> string, hosts: seq<Host>)
    requires PlainResolved(resolve, hosts)
    ensures PlainHosts(DesiredMap(cfg, resolve, hosts))
  {
    hide DesiredMap, ServerName, PlainAddress;
    var m := DesiredMap(cfg, resolve, hosts);
    DesiredMapCovers(cfg, resolve, hosts);
    forall n | n in m ensures PlainAddress(m[n].host) {
      var h :| h in hosts && ServerName(cfg, h) == n && m[n] == Resolved(resolve, h);
    }
  }

  lemma DesiredIsNotEmpty(cfg: NameConfig, resolve: string -> string, hosts: seq<Host>)
    requires hosts != []
    ensures DesiredMap(cfg, resolve, hosts).Keys != {}
  {
    hide StableServerName;
    assert ServerName(cfg, hosts[|hosts| - 1]) in DesiredMap(cfg, resolve, hosts);
  }

  /** No call on the backend failed. */
  ghost predicate OkOn(es: seq<Called>, b: string) {
    forall i :: 0 <= i < |es| && es[i].backend == b ==> es[i].ok
  }

  /** After each call on it the backend has a ready server. */
  ghost predicate ReadyAfterEach(es: seq<Called>, b: string) {
    forall i :: 0 <= i < |es| && es[i].backend == b ==> ReadyNames(es[i].after) != {}
  }

  /** Unless a call on it fails, a backend that starts with a ready server is never without one. */
  ghost predicate StaysUp(es: seq<Called>, b: string, t: Table) {
    OkOn(es, b) && ReadyNames(t) != {} ==> ReadyAfterEach(es, b)
  }

  lemma UntouchedStaysUp(es: seq<Called>, b: string, t: Table)
    requires forall i :: 0 <= i < |es| ==> es[i].backend != b
    ensures StaysUp(es, b, t)
  {
  }

  /** Calls on another backend, or the first ones on this, do not take a backend down. */
  lemma StaysUpOn(es: seq<Called>, one: seq<Called>, b: string, t: Table)
    requires StaysUp(es, b, t) && StaysUp(one, b, t)
    ensures StaysUp(es + one, b, t)
  {
    hide ReadyNames;
    assert forall i :: 0 <= i < |es| ==> (es + one)[i] == es[i];
    assert forall i :: 0 <= i < |one| ==> (es + one)[|es| + i] == one[i];
  }

  lemma BreakingLastStaysUp(es: seq<Called>, b: string, t: Table, targets: set<string>, split: nat)
    requires MakeBeforeBreak(es, b, t, targets, split) && targets != {} && OnBackend(es, b)
    ensures StaysUp(es, b, t)
  {
    hide OnlyMakes, ReadyNames;
    if OkOn(es, b) && ReadyNames(t) != {} {
      assert forall i :: 0 <= i < split ==> es[..split][i] == es[i];
      NeverEmpty(es, b, t, targets, split);
    }
  }

  /** One backend of the pass, in terms of the hosts it should serve. */
  method ReconcileHosts(manager: HaproxyManager, b: string, hosts: seq<Host>, servers: seq<RuntimeServer>)
    returns (ok: bool, ghost es: seq<Called>)
    requires manager.client.Valid()
    requires IsHTTPHostGroup(hosts) && Lists(servers, manager.client.Servers(b))
    modifies manager.client
    ensures manager.client.Valid()
    ensures manager.client.trace == old(manager.client.trace) + es && OnBackend(es, b)
    ensures manager.client.backends.Keys == old(manager.client.backends).Keys
    ensures forall x :: x != b ==> TableOf(manager.client.backends, x) == TableOf(old(manager.client.backends), x)
    ensures ok ==> NamesOf(manager.cfg, hosts, TableOf(manager.client.backends, b).Keys)
    ensures manager.client.reliable && b in manager.client.backends &&
            Reachable(manager.client.accepts, manager.resolve, hosts) && NoClash(manager.cfg, hosts) ==>
      ok && Serves(manager.cfg, manager.resolve, hosts, TableOf(manager.client.backends, b))
    ensures NoClash(manager.cfg, hosts) &&
            Serves(manager.cfg, manager.resolve, hosts, TableOf(old(manager.client.backends), b)) ==>
      ok && es == [] && manager.client.backends == old(manager.client.backends)
    ensures hosts != [] && PlainResolved(manager.resolve, hosts) ==>
      StaysUp(es, b, TableOf(old(manager.client.backends), b))
  {
    hide WellNamed, Lists, IsHTTPHostGroup, Serves, NamesOf, Reachable, NoClash, AllOk, MakeBeforeBreak;
    hide Targets, DesiredMap, Identical, Settled, PlainHosts, TableOf, PlainResolved, StaysUp;
    ghost var before := manager.client.backends;
    ghost var desired := DesiredMap(manager.cfg, manager.resolve, hosts);
    WantedTargets(manager.client, manager.cfg, manager.resolve, hosts, TableOf(before, b));
    ghost var split, parts;
    ok, es, split, parts := manager.ReconcileBackend(b, hosts, servers);
    OthersSame(before, manager.client.backends, b);
    ghost var after := TableOf(manager.client.backends, b);
    if NoClash(manager.cfg, hosts) {
      ServesIffIdentical(manager.cfg, manager.resolve, hosts, TableOf(before, b));
      ServesIffIdentical(manager.cfg, manager.resolve, hosts, after);
    }
    if ok && Settled(desired.Keys, desired, after) {
      SettledIsIdentical(desired, after);
    }
    if hosts != [] && PlainResolved(manager.resolve, hosts) {
      DesiredIsPlain(manager.cfg, manager.resolve, hosts);
      DesiredIsNotEmpty(manager.cfg, manager.resolve, hosts);
      BreakingLastStaysUp(es, b, TableOf(before, b), desired.Keys, split);
    }
  }

  lemma SettledIsIdentical(desired: map<string, Host>, t: Table)
    requires Settled(desired.Keys, desired, t) && t.Keys == desired.Keys
    ensures Identical(desired, t)
  {
  }

  ghost predicate ListsWanted(cfg: NameConfig, apps: map<string, App>, b: string, hosts: seq<Host>) {
    hosts != [] && forall h :: h in hosts <==> Wants(cfg, apps, b, h)
  }

  /** What the proxy must offer for a pass to reach its goal: every wanted backend exists,
      addresses are plain once resolved and accepted, and names do not clash. */
  ghost predicate Servable(cfg: NameConfig, resolve: string -> string, accepts: string -> bool, apps: map<string, App>,
      backends: map<string, Table>) {
    forall b, hosts :: ListsWanted(cfg, apps, b, hosts) ==>
      b in backends && Reachable(accepts, resolve, hosts) && NoClash(cfg, hosts)
  }

  ghost predicate AllNamed(cfg: NameConfig, apps: map<string, App>, backends: map<string, Table>) {
    forall b, hosts :: ListsWanted(cfg, apps, b, hosts) ==> NamesOf(cfg, hosts, TableOf(backends, b).Keys)
  }

  ghost predicate AllServed(cfg: NameConfig, resolve: string -> string, apps: map<string, App>,
      backends: map<string, Table>) {
    forall b, hosts :: ListsWanted(cfg, apps, b, hosts) ==> Serves(cfg, resolve, hosts, TableOf(backends, b))
  }

  /** Every host that is asked for has a server of its name in its backend: at its resolved address
      and its port, ready and up. */
  ghost predicate HasServers(cfg: NameConfig, resolve: string -> string, apps: map<string, App>,
      backends: map<string, Table>) {
    forall id, g, b, h :: Asks(cfg, apps, id, g, b, h) ==>
      && b in backends && ServerName(cfg, h) in backends[b]
      && Configured(backends[b][ServerName(cfg, h)], resolve(h.host), h.port)
  }

  /** And such a backend has no other servers. */
  ghost predicate HasNoOthers(cfg: NameConfig, apps: map<string, App>, backends: map<string, Table>) {
    forall id, g, b, h, n :: Asks(cfg, apps, id, g, b, h) && b in backends && n in backends[b] ==>
      exists id', g', h' :: Asks(cfg, apps, id', g', b, h') && ServerName(cfg, h') == n
  }

  lemma {:induction false} ServedMeans(cfg: NameConfig, resolve: string -> string, apps: map<string, App>,
      backends: map<string, Table>, wanted: map<string, seq<Host>>)
    requires IsAggregate(cfg, apps, wanted)
    ensures AllServed(cfg, resolve, apps, backends) ==> HasServers(cfg, resolve, apps, backends)
    ensures AllNamed(cfg, apps, backends) ==> HasNoOthers(cfg, apps, backends)
  {
    hide Asks, Wants, StableServerName, IsHTTP;
    forall id, g, b, h | Asks(cfg, apps, id, g, b, h)
      ensures b in wanted && ListsWanted(cfg, apps, b, wanted[b]) && h in wanted[b]
    {
      WantsIff(cfg, apps, b, h);
      assert h in Lookup(wanted, b);
      AggregateListsWanted(cfg, apps, wanted, b);
    }
    if AllServed(cfg, resolve, apps, backends) {
      forall id, g, b, h | Asks(cfg, apps, id, g, b, h)
        ensures b in backends && ServerName(cfg, h) in backends[b]
        ensures b in backends && ServerName(cfg, h) in backends[b] ==>
          Configured(backends[b][ServerName(cfg, h)], resolve(h.host), h.port)
      {
        ServedIsConfigured(cfg, resolve, wanted[b], TableOf(backends, b), h);
      }
    }
    if AllNamed(cfg, apps, backends) {
      forall id, g, b, h, n | Asks(cfg, apps, id, g, b, h) && b in backends && n in backends[b]
        ensures exists id', g', h' :: Asks(cfg, apps, id', g', b, h') && ServerName(cfg, h') == n
      {
        var h' :| h' in wanted[b] && ServerName(cfg, h') == n;
        assert h' in Lookup(wanted, b);
        WantsIff(cfg, apps, b, h');
      }
    }
  }

  lemma ServedIsConfigured(cfg: NameConfig, resolve: string -> string, hosts: seq<Host>, t: Table, h: Host)
    requires Serves(cfg, resolve, hosts, t) && h in hosts
    ensures ServerName(cfg, h) in t && Configured(t[ServerName(cfg, h)], resolve(h.host), h.port)
  {
    hide StableServerName;
  }

  /** What a pass works with. */
  datatype Pass = Pass(
    cfg: NameConfig,
    resolve: string -> string,
    accepts: string -> bool,
    wanted: map<string, seq<Host>>,
    before: map<string, Table>,
    reliable: bool)

  /** How far the pass has come. */
  ghost predicate Passed(p: Pass, now: map<string, Table>, todo: set<string>, reconciled: set<string>,
      failed: set<string>, es: seq<Called>) {
    && todo <= p.wanted.Keys && p.wanted.Keys == todo + failed + reconciled && reconciled !! todo
    && now.Keys == p.before.Keys
    && (forall b :: b in todo || b !in p.wanted ==> TableOf(now, b) == TableOf(p.before, b))
    && (forall i :: 0 <= i < |es| ==> es[i].backend in p.wanted && es[i].backend !in todo)
    && (forall b :: b in p.wanted && PlainResolved(p.resolve, p.wanted[b]) ==> StaysUp(es, b, TableOf(p.before, b)))
    && (forall b :: b in reconciled ==> NamesOf(p.cfg, p.wanted[b], TableOf(now, b).Keys))
    && (p.reliable && CanServe(p.cfg, p.resolve, p.accepts, p.wanted, p.before) ==>
      failed == {} && forall b :: b in reconciled ==> Serves(p.cfg, p.resolve, p.wanted[b], TableOf(now, b)))
    && (CanServe(p.cfg, p.resolve, p.accepts, p.wanted, p.before) ==>
      ServesAll(p.cfg, p.resolve, p.wanted, p.before) ==> es == [] && now == p.before)
  }

  lemma PassStarts(p: Pass)
    ensures Passed(p, p.before, p.wanted.Keys, {}, {}, [])
  {
    hide PlainResolved, Serves;
  }

  lemma PassAt(p: Pass, now: map<string, Table>, todo: set<string>, reconciled: set<string>, failed: set<string>,
      es: seq<Called>, b: string)
    requires Passed(p, now, todo, reconciled, failed, es) && b in todo
    ensures b in p.wanted && TableOf(now, b) == TableOf(p.before, b)
  {
  }

  lemma PassStep(p: Pass, now: map<string, Table>, next: map<string, Table>, todo: set<string>,
      reconciled: set<string>, failed: set<string>,
      es: seq<Called>, b: string, ok: bool, one: seq<Called>)
    requires Passed(p, now, todo, reconciled, failed, es) && b in todo && b in p.wanted
    requires OnBackend(one, b) && next.Keys == now.Keys
    requires forall x :: x != b ==> TableOf(next, x) == TableOf(now, x)
    requires ok ==> NamesOf(p.cfg, p.wanted[b], TableOf(next, b).Keys)
    requires p.reliable && b in now && Reachable(p.accepts, p.resolve, p.wanted[b]) && NoClash(p.cfg, p.wanted[b]) ==>
      ok && Serves(p.cfg, p.resolve, p.wanted[b], TableOf(next, b))
    requires NoClash(p.cfg, p.wanted[b]) && Serves(p.cfg, p.resolve, p.wanted[b], TableOf(now, b)) ==>
      ok && one == [] && next == now
    requires PlainResolved(p.resolve, p.wanted[b]) ==> StaysUp(one, b, TableOf(now, b))
    ensures Passed(p, next, todo - {b}, if ok then reconciled + {b} else reconciled,
      if ok then failed else failed + {b}, es + one)
  {
    hide NamesOf, Serves, NoClash, Reachable, TableOf, PlainResolved, StaysUp;
    forall x | x in p.wanted && PlainResolved(p.resolve, p.wanted[x])
      ensures StaysUp(es + one, x, TableOf(p.before, x))
    {
      if x != b {
        UntouchedStaysUp(one, x, TableOf(p.before, x));
      }
      StaysUpOn(es, one, x, TableOf(p.before, x));
    }
  }

  lemma PassEnds(p: Pass, now: map<string, Table>, reconciled: set<string>, failed: set<string>, es: seq<Called>)
    requires Passed(p, now, {}, reconciled, failed, es)
    ensures now.Keys == p.before.Keys && p.wanted.Keys == failed + reconciled
    ensures forall b :: b !in p.wanted ==> TableOf(now, b) == TableOf(p.before, b)
    ensures forall i :: 0 <= i < |es| ==> es[i].backend in p.wanted
    ensures forall b :: b in p.wanted && PlainResolved(p.resolve, p.wanted[b]) ==> StaysUp(es, b, TableOf(p.before, b))
    ensures failed == {} ==> NamesAll(p.cfg, p.wanted, now)
    ensures p.reliable && CanServe(p.cfg, p.resolve, p.accepts, p.wanted, p.before) ==>
      failed == {} && ServesAll(p.cfg, p.resolve, p.wanted, now)
    ensures CanServe(p.cfg, p.resolve, p.accepts, p.wanted, p.before) &&
            ServesAll(p.cfg, p.resolve, p.wanted, p.before) ==>
      es == [] && now == p.before
  {
    hide NamesOf, Serves, NoClash, Reachable, TableOf, PlainResolved, StaysUp;
  }

  /** ReconcileAllBackends, in its default mode with the aggregated call. */
  method ReconcileAllBackends(manager: HaproxyManager, apps: map<string, App>)
    returns (ok: bool, ghost es: seq<Called>)
    requires manager.client.Valid()
    modifies manager.client
    ensures manager.client.Valid()
    ensures manager.client.trace == old(manager.client.trace) + es
    // only wanted backends are touched
    ensures manager.client.backends.Keys == old(manager.client.backends).Keys
    ensures forall i :: 0 <= i < |es| ==> WantsBackend(manager.cfg, apps, es[i].backend)
    ensures forall b :: !WantsBackend(manager.cfg, apps, b) ==>
      manager.client.Servers(b) == old(manager.client.Servers(b))
    // no backend is taken down on the way
    ensures forall b :: PlainWanted(manager.cfg, manager.resolve, apps, b) ==>
      StaysUp(es, b, old(manager.client.Servers(b)))
    // success is honest under any failures
    ensures ok ==>
      (exists b :: WantsBackend(manager.cfg, apps, b)) && AllNamed(manager.cfg, apps, manager.client.backends)
    // without failures the wanted hosts are served
    ensures manager.client.reliable &&
            Servable(manager.cfg, manager.resolve, manager.client.accepts, apps, old(manager.client.backends)) ==>
      (ok <==> exists b :: WantsBackend(manager.cfg, apps, b)) &&
        AllServed(manager.cfg, manager.resolve, apps, manager.client.backends) &&
        HasServers(manager.cfg, manager.resolve, apps, manager.client.backends)
    ensures ok ==> HasNoOthers(manager.cfg, apps, manager.client.backends)
    // and another pass has nothing to do
    ensures Servable(manager.cfg, manager.resolve, manager.client.accepts, apps, old(manager.client.backends)) &&
            AllServed(manager.cfg, manager.resolve, apps, old(manager.client.backends)) ==>
      es == [] && manager.client.backends == old(manager.client.backends)
  {
    hide WellNamed, Lists, Lookup, IsHTTPHostGroup, Wants, WantsBackend, Serves, NamesOf, Reachable;
    hide NoClash, ListsWanted, Servable, AllNamed, AllServed, TableOf, IsAggregate, CanServe, ServesAll;
    hide NamesAll, Passed, OnBackend, HasServers, HasNoOthers, PlainWanted, PlainResolved, StaysUp;
    var client, cfg, resolve := manager.client, manager.cfg, manager.resolve;
    ghost var before := client.backends;
    ok, es := false, [];
    var wanted := AggregateHosts(cfg, apps);
    WantedIs(cfg, resolve, client.accepts, apps, wanted, before);
    forall b ensures b in wanted <==> WantsBackend(cfg, apps, b) {
      AggregateListsWanted(cfg, apps, wanted, b);
    }
    var state := GetServersStateWithBackend(client);
    if state.None? {
      forall b ensures StaysUp([], b, TableOf(before, b)) {
        UntouchedStaysUp([], b, TableOf(before, b));
      }
      return;
    }
    var failed, reconciled: set<string> := {}, {};
    var todo := wanted.Keys;
    ghost var pass := Pass(cfg, resolve, client.accepts, wanted, before, client.reliable);
    PassStarts(pass);
    while todo != {}
      invariant client.Valid() && client.trace == old(client.trace) + es
      invariant Passed(pass, client.backends, todo, reconciled, failed, es)
      decreases |todo|
    {
      var b :| b in todo;
      PassAt(pass, client.backends, todo, reconciled, failed, es, b);
      assert Lists(Lookup(state.value, b), TableOf(client.backends, b));
      ghost var t := client.backends;
      var backendOk, one := ReconcileHosts(manager, b, wanted[b], Lookup(state.value, b));
      Assoc(old(client.trace), es, one);
      PassStep(pass, t, client.backends, todo, reconciled, failed, es, b, backendOk, one);
      es := es + one;
      todo := todo - {b};
      if backendOk {
        reconciled := reconciled + {b};
      } else {
        failed := failed + {b};
      }
    }
    PassEnds(pass, client.backends, reconciled, failed, es);
    WantedIs(cfg, resolve, client.accepts, apps, wanted, client.backends);
    ServedMeans(cfg, resolve, apps, client.backends, wanted);
    ok := failed == {} && reconciled != {};
    forall b | PlainWanted(cfg, resolve, apps, b) ensures StaysUp(es, b, TableOf(before, b)) {
      if b in wanted {
        AggregatePlain(cfg, resolve, apps, wanted, b);
      } else {
        UntouchedStaysUp(es, b, TableOf(before, b));
      }
    }
  }

  /** The hosts wanted in the backend have plain addresses once resolved. */
  ghost predicate PlainWanted(cfg: NameConfig, resolve: string -> string, apps: map<string, App>, b: string) {
    forall h :: Wants(cfg, apps, b, h) ==> PlainAddress(resolve(h.host))
  }

  lemma AggregatePlain(cfg: NameConfig, resolve: string -> string, apps: map<string, App>,
      wanted: map<string, seq<Host>>, b: string)
    requires IsAggregate(cfg, apps, wanted) && b in wanted && PlainWanted(cfg, resolve, apps, b)
    ensures PlainResolved(resolve, wanted[b])
  {
    hide Wants, PlainAddress;
    forall h | h in wanted[b] ensures PlainAddress(resolve(h.host)) {
      assert h in Lookup(wanted, b);
    }
  }

  ghost predicate CanServe(cfg: NameConfig, resolve: string -> string, accepts: string -> bool,
      wanted: map<string, seq<Host>>,
      backends: map<string, Table>) {
    forall b :: b in wanted ==> b in backends && Reachable(accepts, resolve, wanted[b]) && NoClash(cfg, wanted[b])
  }

  ghost predicate ServesAll(cfg: NameConfig, resolve: string -> string, wanted: map<string, seq<Host>>,
      backends: map<string, Table>) {
    forall b :: b in wanted ==> Serves(cfg, resolve, wanted[b], TableOf(backends, b))
  }

  ghost predicate NamesAll(cfg: NameConfig, wanted: map<string, seq<Host>>, backends: map<string, Table>) {
    forall b :: b in wanted ==> NamesOf(cfg, wanted[b], TableOf(backends, b).Keys)
  }

  ghost predicate IsAggregate(cfg: NameConfig, apps: map<string, App>, wanted: map<string, seq<Host>>) {
    && (forall b :: b in wanted ==> wanted[b] != [])
    && (forall b, h :: h in Lookup(wanted, b) <==> Wants(cfg, apps, b, h))
  }

  /** The aggregate stands for what the apps want. */
  lemma WantedIs(cfg: NameConfig, resolve: string -> string, accepts: string -> bool, apps: map<string, App>,
      wanted: map<string, seq<Host>>, backends: map<string, Table>)
    requires IsAggregate(cfg, apps, wanted)
    ensures CanServe(cfg, resolve, accepts, wanted, backends) <==> Servable(cfg, resolve, accepts, apps, backends)
    ensures ServesAll(cfg, resolve, wanted, backends) <==> AllServed(cfg, resolve, apps, backends)
    ensures NamesAll(cfg, wanted, backends) <==> AllNamed(cfg, apps, backends)
  {
    hide Wants, NamesOf, Serves, Reachable, NoClash, IsAggregate, ListsWanted;
    forall b | b in wanted ensures ListsWanted(cfg, apps, b, wanted[b]) {
      AggregateListsWanted(cfg, apps, wanted, b);
    }
    forall b, hosts | ListsWanted(cfg, apps, b, hosts)
      ensures b in wanted
      ensures NamesOf(cfg, hosts, TableOf(backends, b).Keys) <==> NamesOf(cfg, wanted[b], TableOf(backends, b).Keys)
      ensures Serves(cfg, resolve, hosts, TableOf(backends, b)) <==>
        Serves(cfg, resolve, wanted[b], TableOf(backends, b))
      ensures NoClash(cfg, hosts) <==> NoClash(cfg, wanted[b])
      ensures Reachable(accepts, resolve, hosts) <==> Reachable(accepts, resolve, wanted[b])
    {
      ListsWantedAggregate(cfg, apps, wanted, b, hosts);
      SameHosts(cfg, resolve, accepts, hosts, wanted[b], TableOf(backends, b));
    }
  }

  lemma AggregateListsWanted(cfg: NameConfig, apps: map<string, App>, wanted: map<string, seq<Host>>, b: string)
    requires IsAggregate(cfg, apps, wanted)
    ensures b in wanted <==> WantsBackend(cfg, apps, b)
    ensures b in wanted ==> ListsWanted(cfg, apps, b, wanted[b])
  {
    hide Wants;
    if b in wanted {
      assert Lookup(wanted, b)[0] in Lookup(wanted, b);
      assert forall h :: h in Lookup(wanted, b) <==> h in wanted[b];
    }
  }

  lemma ListsWantedAggregate(cfg: NameConfig, apps: map<string, App>, wanted: map<string, seq<Host>>, b: string,
      hosts: seq<Host>)
    requires IsAggregate(cfg, apps, wanted) && ListsWanted(cfg, apps, b, hosts)
    ensures b in wanted && forall h :: h in hosts <==> h in wanted[b]
  {
    hide Wants;
    assert hosts[0] in hosts;
    assert hosts[0] in Lookup(wanted, b);
    assert forall h :: h in hosts <==> h in Lookup(wanted, b);
  }

  lemma OthersSame(t: map<string, Table>, t': map<string, Table>, b: string)
    requires t' - {b} == t - {b} && (b in t' <==> b in t)
    ensures t'.Keys == t.Keys
    ensures forall x :: x != b ==> TableOf(t', x) == TableOf(t, x)
    ensures TableOf(t', b) == TableOf(t, b) ==> t' == t
  {
    forall x | x != b ensures (x in t' <==> x in t) && TableOf(t', x) == TableOf(t, x) {
      assert x in t <==> x in t - {b};
      assert x in t' <==> x in t' - {b};
      assert x in t ==> (t - {b})[x] == t[x] && (t' - {b})[x] == t'[x];
    }
  }
}
