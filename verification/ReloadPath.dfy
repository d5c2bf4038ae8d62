/** One reload(): when the proxy must load a new config, when the runtime API is enough, and why
    the two ways end in the same place. */
module ReloadPath {
  import opened Endpoints
  import opened StableNames
  import opened ServerState
  import opened HaproxyRuntime
  import opened HaproxyFleet
  import opened GoStrings
  import opened Rendering

  // ---- The abstract render ----

  /** A group of the data gives a backend one of its HTTP hosts, whatever else is in the group. */
  predicate GivesHost(cfg: NameConfig, apps: map<string, App>, key: GroupKey, b: string, h: Host) {
    && HasBackend(apps, key.0, key.1) && GroupBackend(cfg, apps[key.0], key.1) == b
    && h in apps[key.0].groups[key.1].hosts && IsHTTP(h)
  }

  /** The hosts that a config rendered from the data has for a backend: templates pick the HTTP
      hosts one by one, where the runtime API path takes or skips a group as a whole. */
  ghost predicate Shows(cfg: NameConfig, apps: map<string, App>, b: string, h: Host) {
    exists key :: GivesHost(cfg, apps, key, b, h)
  }

  ghost predicate ListsShown(cfg: NameConfig, apps: map<string, App>, b: string, hosts: seq<Host>) {
    forall h :: h in hosts <==> Shows(cfg, apps, b, h)
  }

  /** What a config rendered from the apps gives: one backend per backend name, and in it one
      ready server per server name of its hosts. */
  ghost predicate IsRender(cfg: NameConfig, resolve: string -> string, apps: map<string, App>,
      backends: map<string, Table>) {
    && backends.Keys == BackendNames(cfg, apps)
    && forall b, hosts :: b in backends && ListsShown(cfg, apps, b, hosts) ==> Serves(cfg, resolve, hosts, backends[b])
  }

  /** Hosts do not fight over server names. */
  ghost predicate NamesAreClear(cfg: NameConfig, apps: map<string, App>) {
    forall b, hosts :: ListsShown(cfg, apps, b, hosts) ==> NoClash(cfg, hosts)
  }

  ghost predicate ReachableData(cfg: NameConfig, resolve: string -> string, accepts: string -> bool,
      apps: map<string, App>) {
    forall b, hosts :: ListsShown(cfg, apps, b, hosts) ==> Reachable(accepts, resolve, hosts)
  }

  lemma WantedIsShown(cfg: NameConfig, apps: map<string, App>, b: string, h: Host)
    requires Wants(cfg, apps, b, h)
    ensures Shows(cfg, apps, b, h) && b in BackendNames(cfg, apps)
  {
    hide GroupBackend, IsHTTP;
    var key :| FeedsHost(cfg, apps, key, b, h);
    assert GivesHost(cfg, apps, key, b, h);
    assert HasBackend(apps, key.0, key.1);
  }

  function ShownSet(cfg: NameConfig, apps: map<string, App>, b: string): set<Host> {
    set id, g, h | id in apps && g in apps[id].groups && h in apps[id].groups[g].hosts &&
      GivesHost(cfg, apps, (id, g), b, h) :: h
  }

  lemma ShownSetIs(cfg: NameConfig, apps: map<string, App>, b: string)
    ensures forall h :: h in ShownSet(cfg, apps, b) <==> Shows(cfg, apps, b, h)
  {
    hide GroupBackend, IsHTTP;
    forall h | Shows(cfg, apps, b, h) ensures h in ShownSet(cfg, apps, b) {
      var key :| GivesHost(cfg, apps, key, b, h);
      assert key == (key.0, key.1);
    }
  }

  lemma {:induction false} Listed(s: set<Host>) returns (q: seq<Host>)
    ensures forall h :: h in q <==> h in s
    decreases |s|
  {
    if s == {} {
      q := [];
    } else {
      var x :| x in s;
      q := Listed(s - {x});
      q := q + [x];
    }
  }

  lemma SomeListing(cfg: NameConfig, apps: map<string, App>, b: string) returns (hosts: seq<Host>)
    ensures ListsShown(cfg, apps, b, hosts)
  {
    ShownSetIs(cfg, apps, b);
    hosts := Listed(ShownSet(cfg, apps, b));
  }

  /** What a client of the proxy can tell of a backend. */
  function View(t: Table): map<string, (string, Option<int>, bool)> {
    map n | n in t :: (t[n].address, t[n].port, Healthy(t[n]))
  }

  lemma ServingLooksTheSame(cfg: NameConfig, resolve: string -> string, hosts: seq<Host>, t: Table, u: Table)
    requires Serves(cfg, resolve, hosts, t) && Serves(cfg, resolve, hosts, u)
    ensures View(t) == View(u)
  {
    hide ServerName, Healthy;
    SameNames(cfg, hosts, t.Keys, u.Keys);
    forall n | n in t ensures n in u && View(t)[n] == View(u)[n] {
      var h :| h in hosts && ServerName(cfg, h) == n;
    }
  }

  /** Any two renders of the same apps have the same backends with the same servers. */
  lemma RendersLookTheSame(cfg: NameConfig, resolve: string -> string, apps: map<string, App>,
      r1: map<string, Table>, r2: map<string, Table>)
    requires IsRender(cfg, resolve, apps, r1) && IsRender(cfg, resolve, apps, r2)
    ensures r1.Keys == r2.Keys
    ensures forall b :: b in r1 ==> View(r1[b]) == View(r2[b])
  {
    hide Serves, View, BackendNames, ListsShown;
    forall b | b in r1 ensures View(r1[b]) == View(r2[b]) {
      var hosts := SomeListing(cfg, apps, b);
      ServingLooksTheSame(cfg, resolve, hosts, r1[b], r2[b]);
    }
  }

  // ---- What the runtime API path makes of it ----

  ghost predicate AllWanted(cfg: NameConfig, apps: map<string, App>) {
    forall b :: b in BackendNames(cfg, apps) ==> WantsBackend(cfg, apps, b)
  }

  predicate SamePlace(h: Host, k: Host) {
    h.host == k.host && h.port == k.port
  }

  /** No HTTP host of a skipped group shares a backend with a group that is not skipped, unless
      such a group has it as well: a pass would remove it. */
  ghost predicate LosesNoHost(cfg: NameConfig, apps: map<string, App>) {
    forall b, h :: WantsBackend(cfg, apps, b) && Shows(cfg, apps, b, h) ==>
      exists k :: Wants(cfg, apps, b, k) && SamePlace(h, k)
  }

  /** Backends that only skipped groups name already have just the servers that a render gives
      them: a pass does not touch them. */
  ghost predicate SkippedAreServed(cfg: NameConfig, resolve: string -> string, apps: map<string, App>,
      backends: map<string, Table>) {
    forall b, hosts ::
      b in BackendNames(cfg, apps) && !WantsBackend(cfg, apps, b) && ListsShown(cfg, apps, b, hosts) ==>
      Serves(cfg, resolve, hosts, TableOf(backends, b))
  }

  /** The runtime API can bring the proxy to the render of these apps, whatever it ran before. */
  ghost predicate ApiCanRender(cfg: NameConfig, resolve: string -> string, accepts: string -> bool,
      apps: map<string, App>) {
    && AllWanted(cfg, apps) && LosesNoHost(cfg, apps)
    && NamesAreClear(cfg, apps) && ReachableData(cfg, resolve, accepts, apps)
  }

  ghost predicate AllHTTP(apps: map<string, App>) {
    forall id, g :: id in apps && g in apps[id].groups ==> IsHTTPHostGroup(apps[id].groups[g].hosts)
  }

  /** With HTTP hosts only, the two ways of picking hosts are the same. */
  lemma HTTPHostsAreWanted(cfg: NameConfig, apps: map<string, App>, b: string, h: Host)
    requires AllHTTP(apps)
    ensures Wants(cfg, apps, b, h) <==> Shows(cfg, apps, b, h)
  {
    hide GroupBackend, IsHTTPHostGroup;
    if Wants(cfg, apps, b, h) {
      WantedIsShown(cfg, apps, b, h);
    }
    if key :| GivesHost(cfg, apps, key, b, h) {
      assert FeedsHost(cfg, apps, key, b, h);
    }
  }

  /** And if, as always after a sync, no group is empty, every backend is reconciled. */
  lemma HTTPGroupsAreWanted(cfg: NameConfig, apps: map<string, App>)
    requires AllFilled(apps) && AllHTTP(apps)
    ensures AllWanted(cfg, apps)
  {
    hide GroupBackend, IsHTTPHostGroup;
    forall b | b in BackendNames(cfg, apps) ensures WantsBackend(cfg, apps, b) {
      var id, g :| id in apps && g in apps[id].groups && HasBackend(apps, id, g) && GroupBackend(cfg, apps[id], g) == b;
      assert Filled(apps[id]);
      var key, hosts := (id, g), apps[id].groups[g].hosts;
      assert hosts[0] in hosts;
      assert FeedsHost(cfg, apps, key, b, hosts[0]);
      assert Wants(cfg, apps, b, hosts[0]);
    }
  }

  /** Data as one would expect them: HTTP hosts only, no empty group, addresses without the
      separator that resolve to something plain that the proxy accepts. */
  ghost predicate PlainHTTPData(cfg: NameConfig, resolve: string -> string, accepts: string -> bool,
      apps: map<string, App>) {
    && AllFilled(apps) && AllHTTP(apps)
    && forall id, g :: id in apps && g in apps[id].groups ==>
      SeparatorFree(cfg, apps[id].groups[g].hosts) && Reachable(accepts, resolve, apps[id].groups[g].hosts)
  }

  /** For such data the runtime API can always bring the proxy to the render. */
  lemma PlainHTTPDataCanBeRendered(cfg: NameConfig, resolve: string -> string, accepts: string -> bool,
      apps: map<string, App>)
    requires PlainHTTPData(cfg, resolve, accepts, apps)
    ensures ApiCanRender(cfg, resolve, accepts, apps)
  {
    HTTPGroupsAreWanted(cfg, apps);
    forall b, hosts | ListsShown(cfg, apps, b, hosts)
      ensures NoClash(cfg, hosts) && Reachable(accepts, resolve, hosts)
    {
      PlainListing(cfg, resolve, accepts, apps, b, hosts);
    }
    hide BackendNames, Wants, Shows, WantsBackend;
    forall b, h | Shows(cfg, apps, b, h) ensures Wants(cfg, apps, b, h) && SamePlace(h, h) {
      HTTPHostsAreWanted(cfg, apps, b, h);
    }
  }

  lemma PlainListing(cfg: NameConfig, resolve: string -> string, accepts: string -> bool, apps: map<string, App>,
      b: string, hosts: seq<Host>)
    requires PlainHTTPData(cfg, resolve, accepts, apps) && ListsShown(cfg, apps, b, hosts)
    ensures NoClash(cfg, hosts) && Reachable(accepts, resolve, hosts)
  {
    hide GroupBackend, NoClash, PlainAddress, IsHTTPHostGroup, IsHTTP, Filled;
    forall h | h in hosts ensures SeparatorFree(cfg, [h]) && PlainAddress(resolve(h.host)) && accepts(resolve(h.host)) {
      assert Shows(cfg, apps, b, h);
      var key :| GivesHost(cfg, apps, key, b, h);
      var group := apps[key.0].groups[key.1].hosts;
      var i :| 0 <= i < |group| && group[i] == h;
    }
    SeparatorFreeEach(cfg, hosts);
  }

  lemma SeparatorFreeEach(cfg: NameConfig, hosts: seq<Host>)
    requires forall h :: h in hosts ==> SeparatorFree(cfg, [h])
    ensures NoClash(cfg, hosts)
  {
    if hosts != [] {
      assert SeparatorFree(cfg, [hosts[0]]);
      forall i | 0 <= i < |hosts|
        ensures cfg.hostPortSeparator[0] !in hosts[i].host && EndsPort(cfg.hostPortSeparator[0], hosts[i].port)
      {
        assert SeparatorFree(cfg, [hosts[i]]) && [hosts[i]][0] == hosts[i];
      }
      SeparatorFreeNamesAreClear(cfg, hosts);
    }
  }

  /** Each host has the place of one of the others. */
  ghost predicate PlacesCovered(hosts: seq<Host>, others: seq<Host>) {
    forall h :: h in hosts ==> exists k :: k in others && SamePlace(h, k)
  }

  /** Where the wanted hosts are served, so are all shown ones if and only if each of them has the
      place of a wanted one. */
  lemma ServesShownIff(cfg: NameConfig, resolve: string -> string, wanted: seq<Host>, shown: seq<Host>, t: Table)
    requires forall h :: h in wanted ==> h in shown
    requires NoClash(cfg, shown) && Serves(cfg, resolve, wanted, t)
    ensures Serves(cfg, resolve, shown, t) <==> PlacesCovered(shown, wanted)
  {
    hide Serves, NoClash, PlacesCovered;
    if Serves(cfg, resolve, shown, t) {
      ServedIsCovered(cfg, resolve, wanted, shown, t);
    }
    if PlacesCovered(shown, wanted) {
      CoveredIsServed(cfg, resolve, wanted, shown, t);
    }
  }

  lemma CoverOf(hosts: seq<Host>, others: seq<Host>, h: Host) returns (k: Host)
    requires PlacesCovered(hosts, others) && h in hosts
    ensures k in others && SamePlace(h, k)
  {
    k :| k in others && SamePlace(h, k);
  }

  lemma BearerOf(cfg: NameConfig, hosts: seq<Host>, names: set<string>, n: string) returns (h: Host)
    requires NamesOf(cfg, hosts, names) && n in names
    ensures h in hosts && ServerName(cfg, h) == n
  {
    h :| h in hosts && ServerName(cfg, h) == n;
  }

  lemma NameOfHost(cfg: NameConfig, hosts: seq<Host>, names: set<string>, h: Host)
    requires NamesOf(cfg, hosts, names) && h in hosts
    ensures ServerName(cfg, h) in names
  {
  }

  lemma ServedIsCovered(cfg: NameConfig, resolve: string -> string, wanted: seq<Host>, shown: seq<Host>, t: Table)
    requires forall h :: h in wanted ==> h in shown
    requires NoClash(cfg, shown) && Serves(cfg, resolve, wanted, t) && Serves(cfg, resolve, shown, t)
    ensures PlacesCovered(shown, wanted)
  {
    hide ServerName, Matches, SamePlace, NoClash, NamesOf;
    forall h | h in shown ensures exists k :: k in wanted && SamePlace(h, k) {
      var k := BearerOf(cfg, wanted, t.Keys, ServerName(cfg, h));
      ClearMeansSamePlace(cfg, shown, h, k);
    }
  }

  lemma CoveredIsServed(cfg: NameConfig, resolve: string -> string, wanted: seq<Host>, shown: seq<Host>, t: Table)
    requires forall h :: h in wanted ==> h in shown
    requires Serves(cfg, resolve, wanted, t) && PlacesCovered(shown, wanted)
    ensures Serves(cfg, resolve, shown, t)
  {
    hide ServerName, Matches, SamePlace, PlacesCovered, NamesOf;
    forall h | h in shown
      ensures ServerName(cfg, h) in t && Matches(Resolved(resolve, h), t[ServerName(cfg, h)])
    {
      var k := CoverOf(shown, wanted, h);
      SamePlaceSameServer(cfg, resolve, h, k);
    }
    forall n | n in t.Keys ensures exists h :: h in shown && ServerName(cfg, h) == n {
      var k := BearerOf(cfg, wanted, t.Keys, n);
    }
    NamesAre(cfg, shown, t.Keys);
  }

  lemma NamesAre(cfg: NameConfig, hosts: seq<Host>, names: set<string>)
    requires forall h :: h in hosts ==> ServerName(cfg, h) in names
    requires forall n :: n in names ==> exists h :: h in hosts && ServerName(cfg, h) == n
    ensures NamesOf(cfg, hosts, names)
  {
    hide ServerName;
  }

  lemma ClearMeansSamePlace(cfg: NameConfig, hosts: seq<Host>, h: Host, k: Host)
    requires NoClash(cfg, hosts) && h in hosts && k in hosts && ServerName(cfg, k) == ServerName(cfg, h)
    ensures SamePlace(h, k)
  {
    hide ServerName;
  }

  lemma SamePlaceSameServer(cfg: NameConfig, resolve: string -> string, h: Host, k: Host)
    requires SamePlace(h, k)
    ensures ServerName(cfg, h) == ServerName(cfg, k)
    ensures forall s :: Matches(Resolved(resolve, h), s) <==> Matches(Resolved(resolve, k), s)
  {
    hide StableServerName, Healthy;
  }

  /** The other way round: a render serves the wanted hosts if it has nothing else in their
      backends. */
  lemma ServesWanted(cfg: NameConfig, resolve: string -> string, wanted: seq<Host>, shown: seq<Host>, t: Table)
    requires forall h :: h in wanted ==> h in shown
    requires Serves(cfg, resolve, shown, t) && PlacesCovered(shown, wanted)
    ensures Serves(cfg, resolve, wanted, t)
  {
    hide ServerName, Matches, SamePlace, PlacesCovered, NamesOf;
    forall h | h in wanted ensures ServerName(cfg, h) in t.Keys {
      NameOfHost(cfg, shown, t.Keys, h);
    }
    forall n | n in t.Keys ensures exists k :: k in wanted && ServerName(cfg, k) == n {
      var h := BearerOf(cfg, shown, t.Keys, n);
      var k := CoverOf(shown, wanted, h);
      SamePlaceSameServer(cfg, resolve, h, k);
    }
    NamesAre(cfg, wanted, t.Keys);
  }

  /** After a pass that served the wanted hosts and left the other backends alone, the proxy runs a
      render exactly under the two conditions. */
  lemma PassedIsRenderIff(cfg: NameConfig, resolve: string -> string, apps: map<string, App>,
      before: map<string, Table>, after: map<string, Table>)
    requires after.Keys == BackendNames(cfg, apps) && NamesAreClear(cfg, apps)
    requires AllServed(cfg, resolve, apps, after)
    requires forall b :: !WantsBackend(cfg, apps, b) ==> TableOf(after, b) == TableOf(before, b)
    ensures IsRender(cfg, resolve, apps, after) <==>
      LosesNoHost(cfg, apps) && SkippedAreServed(cfg, resolve, apps, before)
  {
    hide Serves, BackendNames, Wants, Shows, NoClash, SamePlace, WantsBackend, AllServed, NamesAreClear;
    forall b, hosts | b in after && ListsShown(cfg, apps, b, hosts)
      ensures WantsBackend(cfg, apps, b) ==>
        (Serves(cfg, resolve, hosts, after[b]) <==> forall h :: Shows(cfg, apps, b, h) ==>
          exists k :: Wants(cfg, apps, b, k) && SamePlace(h, k))
      ensures !WantsBackend(cfg, apps, b) ==> after[b] == TableOf(before, b)
    {
      if WantsBackend(cfg, apps, b) {
        WantedBackendIff(cfg, resolve, apps, after, b, hosts);
      }
    }
    if IsRender(cfg, resolve, apps, after) {
      forall b, h | WantsBackend(cfg, apps, b) && Shows(cfg, apps, b, h)
        ensures exists k :: Wants(cfg, apps, b, k) && SamePlace(h, k)
      {
        WantedBackendIsNamed(cfg, apps, b);
        var hosts := SomeListing(cfg, apps, b);
      }
    }
  }

  lemma WantedBackendIsNamed(cfg: NameConfig, apps: map<string, App>, b: string)
    requires WantsBackend(cfg, apps, b)
    ensures b in BackendNames(cfg, apps)
  {
    hide Wants, Shows, BackendNames;
    var h :| Wants(cfg, apps, b, h);
    WantedIsShown(cfg, apps, b, h);
  }

  ghost function WantedOf(cfg: NameConfig, apps: map<string, App>, b: string, shown: seq<Host>): seq<Host> {
    if shown == [] then []
    else (if Wants(cfg, apps, b, shown[0]) then [shown[0]] else []) + WantedOf(cfg, apps, b, shown[1..])
  }

  lemma {:induction false} WantedOfHas(cfg: NameConfig, apps: map<string, App>, b: string, shown: seq<Host>)
    ensures forall h :: h in WantedOf(cfg, apps, b, shown) <==> h in shown && Wants(cfg, apps, b, h)
  {
    hide Wants;
    if shown != [] {
      WantedOfHas(cfg, apps, b, shown[1..]);
      assert forall h :: h in shown <==> h == shown[0] || h in shown[1..];
    }
  }

  /** A listing of a wanted backend's wanted hosts, out of one of all its hosts. */
  lemma WantedListing(cfg: NameConfig, apps: map<string, App>, b: string, shown: seq<Host>)
    requires ListsShown(cfg, apps, b, shown)
    ensures forall h :: h in WantedOf(cfg, apps, b, shown) <==> Wants(cfg, apps, b, h)
    ensures forall h :: h in WantedOf(cfg, apps, b, shown) ==> h in shown
    ensures WantsBackend(cfg, apps, b) ==> ListsWanted(cfg, apps, b, WantedOf(cfg, apps, b, shown))
  {
    hide Wants, Shows;
    WantedOfHas(cfg, apps, b, shown);
    forall h | Wants(cfg, apps, b, h) ensures h in shown {
      WantedIsShown(cfg, apps, b, h);
    }
  }

  lemma WantedBackendIff(cfg: NameConfig, resolve: string -> string, apps: map<string, App>, after: map<string, Table>,
      b: string, shown: seq<Host>)
    requires b in after && NamesAreClear(cfg, apps) && AllServed(cfg, resolve, apps, after)
    requires WantsBackend(cfg, apps, b) && ListsShown(cfg, apps, b, shown)
    ensures Serves(cfg, resolve, shown, after[b]) <==>
      forall h :: Shows(cfg, apps, b, h) ==> exists k :: Wants(cfg, apps, b, k) && SamePlace(h, k)
  {
    hide Wants, Shows, Serves, NoClash, WantsBackend, SamePlace;
    WantedListing(cfg, apps, b, shown);
    ServesShownIff(cfg, resolve, WantedOf(cfg, apps, b, shown), shown, after[b]);
  }

  /** Data that can be rendered by the API can be served, and a render of them is served. */
  lemma RenderableIsServable(cfg: NameConfig, resolve: string -> string, accepts: string -> bool,
      apps: map<string, App>,
      backends: map<string, Table>)
    requires NamesAreClear(cfg, apps)
    ensures BackendNames(cfg, apps) <= backends.Keys && ReachableData(cfg, resolve, accepts, apps) ==>
      Servable(cfg, resolve, accepts, apps, backends)
    ensures IsRender(cfg, resolve, apps, backends) && LosesNoHost(cfg, apps) ==> AllServed(cfg, resolve, apps, backends)
  {
    hide BackendNames, Wants, Shows, SamePlace, NoClash, Reachable, Serves;
    forall b, hosts | ListsWanted(cfg, apps, b, hosts)
      ensures b in BackendNames(cfg, apps) && NoClash(cfg, hosts)
      ensures ReachableData(cfg, resolve, accepts, apps) ==> Reachable(accepts, resolve, hosts)
      ensures IsRender(cfg, resolve, apps, backends) && LosesNoHost(cfg, apps) ==>
        Serves(cfg, resolve, hosts, TableOf(backends, b))
    {
      assert Wants(cfg, apps, b, hosts[0]);
      WantedBackendIsNamed(cfg, apps, b);
      var shown := SomeListing(cfg, apps, b);
      WantedListing(cfg, apps, b, shown);
      FewerHosts(cfg, resolve, accepts, hosts, shown);
      if IsRender(cfg, resolve, apps, backends) && LosesNoHost(cfg, apps) {
        ServesWanted(cfg, resolve, hosts, shown, backends[b]);
      }
    }
  }

  /** Where all wanted hosts have their names, their backends exist. */
  lemma NamedIsServable(cfg: NameConfig, resolve: string -> string, accepts: string -> bool, apps: map<string, App>,
      backends: map<string, Table>, after: map<string, Table>)
    requires NamesAreClear(cfg, apps) && ReachableData(cfg, resolve, accepts, apps)
    requires after.Keys == backends.Keys && AllNamed(cfg, apps, after)
    ensures Servable(cfg, resolve, accepts, apps, backends)
  {
    hide Wants, Shows, NoClash, Reachable, ServerName;
    forall b, hosts | ListsWanted(cfg, apps, b, hosts)
      ensures b in backends && NoClash(cfg, hosts) && Reachable(accepts, resolve, hosts)
    {
      assert ServerName(cfg, hosts[0]) in TableOf(after, b);
      var shown := SomeListing(cfg, apps, b);
      WantedListing(cfg, apps, b, shown);
      FewerHosts(cfg, resolve, accepts, hosts, shown);
    }
  }

  lemma FewerHosts(cfg: NameConfig, resolve: string -> string, accepts: string -> bool, some: seq<Host>, all: seq<Host>)
    requires forall h :: h in some ==> h in all
    ensures NoClash(cfg, all) ==> NoClash(cfg, some)
    ensures Reachable(accepts, resolve, all) ==> Reachable(accepts, resolve, some)
  {
    hide ServerName, PlainAddress;
  }

  function ReadyServers(m: map<string, Host>): Table {
    map n | n in m :: RuntimeServer(n, m[n].host, Some(m[n].port), "ready", "up")
  }

  /** The abstract render itself. */
  method Render(cfg: NameConfig, resolve: string -> string,
      apps: map<string, App>) returns (config: map<string, Table>)
    ensures WellNamed(config)
    ensures config.Keys == BackendNames(cfg, apps)
    ensures NamesAreClear(cfg, apps) ==> IsRender(cfg, resolve, apps, config)
  {
    hide BackendNames, Shows, DesiredMap, NamesAreClear, IsRender;
    config := map[];
    ghost var names := BackendNames(cfg, apps);
    var todo := RenderedNames(cfg, apps);
    while todo != {}
      invariant config.Keys == names - todo && todo <= names
      invariant forall b :: b in config ==> exists hosts ::
        ListsShown(cfg, apps, b, hosts) && config[b] == ReadyServers(DesiredMap(cfg, resolve, hosts))
      decreases |todo|
    {
      var b :| b in todo;
      var hosts := ShownHosts(cfg, apps, b);
      config := config[b := ReadyServers(DesiredMap(cfg, resolve, hosts))];
      todo := todo - {b};
    }
    RenderServes(cfg, resolve, apps, config);
  }

  /** The hosts that a template picks for a backend, in some order. */
  method ShownHosts(cfg: NameConfig, apps: map<string, App>, b: string) returns (hosts: seq<Host>)
    ensures ListsShown(cfg, apps, b, hosts)
  {
    ShownSetIs(cfg, apps, b);
    hosts := [];
    var todo := ShownSet(cfg, apps, b);
    ghost var all := todo;
    hide Shows;
    while todo != {}
      invariant todo <= all && forall h :: h in hosts <==> h in all && h !in todo
      decreases |todo|
    {
      var h :| h in todo;
      hosts := hosts + [h];
      todo := todo - {h};
    }
  }

  lemma RenderServes(cfg: NameConfig, resolve: string -> string, apps: map<string, App>, config: map<string, Table>)
    requires config.Keys == BackendNames(cfg, apps)
    requires forall b :: b in config ==> exists hosts ::
      ListsShown(cfg, apps, b, hosts) && config[b] == ReadyServers(DesiredMap(cfg, resolve, hosts))
    ensures WellNamed(config)
    ensures NamesAreClear(cfg, apps) ==> IsRender(cfg, resolve, apps, config)
  {
    hide BackendNames, Serves, Shows, DesiredMap, NoClash;
    if NamesAreClear(cfg, apps) {
      forall b, hosts | b in config && ListsShown(cfg, apps, b, hosts) ensures Serves(cfg, resolve, hosts, config[b]) {
        var listed :| ListsShown(cfg, apps, b, listed) && config[b] == ReadyServers(DesiredMap(cfg, resolve, listed));
        SameHosts(cfg, resolve, _ => true, listed, hosts, config[b]);
        ServesIffIdentical(cfg, resolve, listed, config[b]);
      }
    }
  }

  // ---- reload() ----

  /** How the attempt to load a new config went; `took` is whether the proxy loaded it anyway. */
  datatype Load = NotTried | NotWritten | Failed(took: bool) | Loaded

  /** The gateway's state around reload(), with the proxy behind it. */
  class Gateway {
    const manager: HaproxyManager
    const runtimeApiEnabled: bool
    const configReloadDisabled: bool
    /** Whether the proxy restores server states from a state file when it loads a config. */
    const restoresServerState: bool

    var lastKnownVhosts: set<string>
    var lastKnownBackends: set<string>
    var configFile: map<string, Table>

    constructor (manager: HaproxyManager, runtimeApiEnabled: bool, configReloadDisabled: bool,
        restoresServerState: bool, configFile: map<string, Table>)
      requires manager.client.Valid() && WellNamed(configFile)
      ensures Valid() && InStep() && FileInStep()
      ensures this.manager == manager && this.runtimeApiEnabled == runtimeApiEnabled
      ensures this.configReloadDisabled == configReloadDisabled && this.restoresServerState == restoresServerState
    {
      this.manager, this.runtimeApiEnabled, this.configReloadDisabled := manager, runtimeApiEnabled,
        configReloadDisabled;
      this.restoresServerState, this.configFile := restoresServerState, configFile;
      lastKnownVhosts, lastKnownBackends := {}, {};
    }

    function Running(): map<string, Table>
      reads this, manager.client
    {
      manager.client.backends
    }

    ghost predicate Valid()
      reads this, manager.client
    {
      manager.client.Valid() && WellNamed(configFile)
    }

    /** After the first good reload: the proxy runs the last known backends. */
    ghost predicate InStep()
      reads this, manager.client
    {
      lastKnownBackends == {} || lastKnownBackends == Running().Keys
    }

    ghost predicate FileInStep()
      reads this
    {
      lastKnownBackends == {} || lastKnownBackends == configFile.Keys
    }

    /** Reconciling in the normal mode, with no failing call, has ended well. */
    predicate Passes(ok: bool) {
      ok && runtimeApiEnabled && !configReloadDisabled && manager.client.reliable
    }

    ghost predicate Clear(apps: map<string, App>) {
      NamesAreClear(manager.cfg, apps) && ReachableData(manager.cfg, manager.resolve, manager.client.accepts, apps)
    }

    /** The config file is one rendered from these apps. */
    ghost predicate Written(apps: map<string, App>)
      reads this
    {
      && configFile.Keys == BackendNames(manager.cfg, apps)
      && (NamesAreClear(manager.cfg, apps) ==> IsRender(manager.cfg, manager.resolve, apps, configFile))
    }

    /** updateProxyConfig; a failure may come before or after the file is replaced. */
    method UpdateProxyConfig(apps: map<string, App>) returns (ok: bool)
      requires Valid()
      modifies this`configFile
      ensures Valid()
      ensures configFile == old(configFile) || configFile.Keys == BackendNames(manager.cfg, apps)
      ensures ok ==> configFile.Keys == BackendNames(manager.cfg, apps)
      ensures ok && NamesAreClear(manager.cfg, apps) ==> IsRender(manager.cfg, manager.resolve, apps, configFile)
    {
      var config := Render(manager.cfg, manager.resolve, apps);
      ok := *;
      var replaced := *;
      if ok || replaced {
        configFile := config;
      }
    }

    /** The proxy reads its config file. */
    method LoadConfig()
      requires Valid()
      modifies manager.client`backends
      ensures Valid()
      ensures Running().Keys == configFile.Keys
      ensures !restoresServerState ==> Running() == configFile
    {
      hide WellNamed;
      manager.client.backends := configFile;
      if restoresServerState {
        var restored: map<string, Table> :| restored.Keys == configFile.Keys && WellNamed(restored);
        manager.client.backends := restored;
      }
    }

    /** The reload command may fail, and even then the proxy may have loaded the file. */
    method RunReloadCommand() returns (ok: bool, ghost took: bool)
      requires Valid()
      modifies manager.client`backends
      ensures Valid()
      ensures ok ==> took
      ensures took ==> Running().Keys == configFile.Keys && (!restoresServerState ==> Running() == configFile)
      ensures !took ==> Running() == old(Running())
    {
      ok := *;
      var loads := *;
      took := ok || loads;
      if ok || loads {
        LoadConfig();
      }
    }

    /** The proxy process restarts with whatever file is there. */
    method RestartProxy()
      requires Valid()
      modifies manager.client`backends
      ensures Valid()
      ensures FileInStep() ==> InStep()
    {
      LoadConfig();
    }

    /** updateAndReloadConfig; the known vhosts are read before anything is written. */
    method UpdateAndReloadConfig(apps: map<string, App>, vhosts: set<string>) returns (ok: bool, ghost load: Load)
      requires Valid()
      modifies this, manager.client`backends
      ensures Valid()
      ensures ok <==> load == Loaded
      ensures load != NotTried
      ensures ok ==> Written(apps)
      ensures ok ==> lastKnownVhosts == vhosts && lastKnownBackends == BackendNames(manager.cfg, apps)
      ensures ok ==> lastKnownBackends == Running().Keys == configFile.Keys
      ensures ok && !restoresServerState && NamesAreClear(manager.cfg, apps) ==>
        IsRender(manager.cfg, manager.resolve, apps, Running())
      ensures !ok ==> lastKnownVhosts == old(lastKnownVhosts) && lastKnownBackends == old(lastKnownBackends)
      ensures load == NotWritten || load == Failed(false) ==> Running() == old(Running())
    {
      hide IsRender, BackendNames, NamesAreClear, WellNamed;
      ok := UpdateProxyConfig(apps);
      if !ok {
        load := NotWritten;
        return;
      }
      ghost var took;
      ok, took := RunReloadCommand();
      load := if ok then Loaded else Failed(took);
      if ok {
        var names := RenderedNames(manager.cfg, apps);
        lastKnownVhosts := vhosts;
        lastKnownBackends := names;
      }
    }

    /** HAProxyManager.Reconcile */
    method Reconcile(apps: map<string, App>) returns (ok: bool, ghost es: seq<Called>)
      requires Valid()
      modifies this`configFile, manager.client
      ensures Valid()
      ensures manager.client.trace == old(manager.client.trace) + es
      ensures Running().Keys == old(Running()).Keys
      ensures configReloadDisabled ==> configFile == old(configFile)
      ensures !configReloadDisabled && (ok || es != []) ==> Written(apps)
      ensures configFile == old(configFile) || configFile.Keys == BackendNames(manager.cfg, apps)
      ensures forall i :: 0 <= i < |es| ==> WantsBackend(manager.cfg, apps, es[i].backend)
      ensures ok ==> (exists b :: WantsBackend(manager.cfg, apps, b)) && AllNamed(manager.cfg, apps, Running())
      ensures forall b :: !WantsBackend(manager.cfg, apps, b) ==> TableOf(Running(), b) == TableOf(old(Running()), b)
      ensures forall b :: PlainWanted(manager.cfg, manager.resolve, apps, b) ==>
        StaysUp(es, b, TableOf(old(Running()), b))
      ensures ok && manager.client.reliable &&
              Servable(manager.cfg, manager.resolve, manager.client.accepts, apps, old(Running())) ==>
        AllServed(manager.cfg, manager.resolve, apps, Running())
      ensures Servable(manager.cfg, manager.resolve, manager.client.accepts, apps, old(Running())) &&
              AllServed(manager.cfg, manager.resolve, apps, old(Running())) ==>
        es == [] && Running() == old(Running())
    {
      hide IsRender, BackendNames, NamesAreClear, WellNamed, WantsBackend, AllNamed, Servable, AllServed;
      hide PlainWanted, StaysUp;
      es := [];
      if !configReloadDisabled {
        ok := UpdateProxyConfig(apps);
        if !ok {
          forall b ensures StaysUp([], b, TableOf(Running(), b)) {
            UntouchedStaysUp([], b, TableOf(Running(), b));
          }
          return;
        }
      }
      ok, es := ReconcileAllBackends(manager, apps);
    }

    /** reload(). `vhosts` and `vhostsLater` are the known vhosts as read before deciding and
        before writing; polls may change them in between. */
    method Reload(apps: map<string, App>, vhosts: set<string>, vhostsLater: set<string>)
      returns (ok: bool, ghost es: seq<Called>, ghost load: Load)
      requires Valid()
      modifies this, manager.client
      ensures Valid()
      ensures manager.client.trace == old(manager.client.trace) + es
      // when the proxy has to load a new config
      ensures load != NotTried <==>
        !runtimeApiEnabled ||
          (!configReloadDisabled &&
          (vhosts != old(lastKnownVhosts) || BackendNames(manager.cfg, apps) != old(lastKnownBackends)))
      // what it remembers
      ensures load == Loaded ==> lastKnownVhosts == vhostsLater && lastKnownBackends == BackendNames(manager.cfg, apps)
      ensures load != Loaded ==> lastKnownVhosts == old(lastKnownVhosts) && lastKnownBackends == old(lastKnownBackends)
      ensures load == Loaded ==> InStep() && FileInStep()
      ensures load != Failed(true) && old(InStep()) ==> InStep()
      ensures load == NotTried && old(FileInStep()) ==> FileInStep()
      // the config file is written before anything is loaded or called
      ensures !(runtimeApiEnabled && configReloadDisabled) && (ok || es != []) ==> Written(apps)
      ensures runtimeApiEnabled && configReloadDisabled ==> configFile == old(configFile)
      // structural changes go through a load: calls reach known backends only
      ensures !configReloadDisabled ==> forall i :: 0 <= i < |es| ==> es[i].backend in lastKnownBackends
      ensures !configReloadDisabled && old(InStep()) ==> forall i :: 0 <= i < |es| ==> es[i].backend in Running()
      ensures es != [] ==> runtimeApiEnabled && (load == NotTried || load == Loaded)
      // success is honest under any failures
      ensures ok && runtimeApiEnabled ==>
        (exists b :: WantsBackend(manager.cfg, apps, b)) && AllNamed(manager.cfg, apps, Running())
      // the slow path renders
      ensures ok && !runtimeApiEnabled && !restoresServerState && NamesAreClear(manager.cfg, apps) ==>
        IsRender(manager.cfg, manager.resolve, apps, Running())
      // on the fast path no backend is taken down on the way
      ensures load == NotTried ==>
        forall b :: PlainWanted(manager.cfg, manager.resolve, apps, b) ==> StaysUp(es, b, TableOf(old(Running()), b))
      // without failures the wanted hosts are served
      ensures ok && runtimeApiEnabled && manager.client.reliable && Clear(apps) ==>
        AllServed(manager.cfg, manager.resolve, apps, Running())
      // the fast path leaves the same as a render would, for data that the API can render
      ensures Passes(ok) && old(InStep()) &&
              ApiCanRender(manager.cfg, manager.resolve, manager.client.accepts, apps) ==>
        IsRender(manager.cfg, manager.resolve, apps, Running())
      // and otherwise exactly when no host is lost and the skipped backends were right before
      ensures Passes(ok) && old(InStep()) && Clear(apps) && load == NotTried ==>
        (IsRender(manager.cfg, manager.resolve, apps, Running()) <==>
        LosesNoHost(manager.cfg, apps) && SkippedAreServed(manager.cfg, manager.resolve, apps, old(Running())))
      // which they are just after a load
      ensures Passes(ok) && Clear(apps) && load == Loaded && !restoresServerState ==>
        (IsRender(manager.cfg, manager.resolve, apps, Running()) <==> LosesNoHost(manager.cfg, apps))
      // nothing to do when the proxy already runs a render
      ensures load == NotTried && ApiCanRender(manager.cfg, manager.resolve, manager.client.accepts, apps) &&
              IsRender(manager.cfg, manager.resolve, apps, old(Running())) ==>
        es == [] && Running() == old(Running())
    {
      hide IsRender, BackendNames, NamesAreClear, ReachableData, AllWanted, LosesNoHost, SkippedAreServed, WellNamed;
      hide WantsBackend, AllNamed, Servable, AllServed, PlainWanted, StaysUp;
      es, load := [], NotTried;
      if !runtimeApiEnabled {
        ok, load := UpdateAndReloadConfig(apps, vhostsLater);
        return;
      }
      if !configReloadDisabled {
        var names := RenderedNames(manager.cfg, apps);
        if vhosts != lastKnownVhosts || names != lastKnownBackends {
          ok, load := UpdateAndReloadConfig(apps, vhostsLater);
          if !ok {
            return;
          }
        }
      }
      ghost var before := Running();
      ok, es := Reconcile(apps);
      WantedAreNamed(manager.cfg, apps);
      if NamesAreClear(manager.cfg, apps) {
        PassMeans(manager.cfg, manager.resolve, manager.client.accepts, apps, before, Running(), ok);
      }
    }
  }

  /** What a pass from one state of the proxy to another says about renders. */
  lemma PassMeans(cfg: NameConfig, resolve: string -> string, accepts: string -> bool, apps: map<string, App>,
      before: map<string, Table>, after: map<string, Table>, ok: bool)
    requires NamesAreClear(cfg, apps) && after.Keys == before.Keys && (ok ==> AllNamed(cfg, apps, after))
    requires forall b :: !WantsBackend(cfg, apps, b) ==> TableOf(after, b) == TableOf(before, b)
    ensures ReachableData(cfg, resolve, accepts, apps) && (ok || BackendNames(cfg, apps) <= before.Keys) ==>
      Servable(cfg, resolve, accepts, apps, before)
    ensures IsRender(cfg, resolve, apps, before) ==> BackendNames(cfg, apps) == before.Keys
    ensures IsRender(cfg, resolve, apps, before) && LosesNoHost(cfg, apps) ==> AllServed(cfg, resolve, apps, before)
    ensures IsRender(cfg, resolve, apps, before) || AllWanted(cfg, apps) ==>
      SkippedAreServed(cfg, resolve, apps, before)
    ensures BackendNames(cfg, apps) == after.Keys && AllServed(cfg, resolve, apps, after) ==>
      (IsRender(cfg, resolve, apps, after) <==>
        LosesNoHost(cfg, apps) && SkippedAreServed(cfg, resolve, apps, before))
  {
    hide IsRender, BackendNames, NamesAreClear, ReachableData, AllWanted, LosesNoHost, SkippedAreServed;
    hide WantsBackend, AllNamed, Servable, AllServed;
    RenderableIsServable(cfg, resolve, accepts, apps, before);
    RenderSkipsNothing(cfg, resolve, apps, before);
    if ok && ReachableData(cfg, resolve, accepts, apps) {
      NamedIsServable(cfg, resolve, accepts, apps, before, after);
    }
    if BackendNames(cfg, apps) == after.Keys && AllServed(cfg, resolve, apps, after) {
      PassedIsRenderIff(cfg, resolve, apps, before, after);
    }
  }

  lemma WantedAreNamed(cfg: NameConfig, apps: map<string, App>)
    ensures forall b :: WantsBackend(cfg, apps, b) ==> b in BackendNames(cfg, apps)
  {
    hide WantsBackend, BackendNames;
    forall b | WantsBackend(cfg, apps, b) ensures b in BackendNames(cfg, apps) {
      WantedBackendIsNamed(cfg, apps, b);
    }
  }

  lemma RenderSkipsNothing(cfg: NameConfig, resolve: string -> string, apps: map<string, App>,
      backends: map<string, Table>)
    ensures IsRender(cfg, resolve, apps, backends) || AllWanted(cfg, apps) ==>
      SkippedAreServed(cfg, resolve, apps, backends)
    ensures IsRender(cfg, resolve, apps, backends) ==> backends.Keys == BackendNames(cfg, apps)
  {
    hide Serves, BackendNames, Shows, WantsBackend;
  }

  /** The fast path refines the slow one: a gateway that reconciles over the runtime API, whether
      or not it finds a reload needed, and one that renders and reloads show the same servers. */
  method FastPathRefinesSlowPath(fast: Gateway, slow: Gateway, apps: map<string, App>,
      vhosts: set<string>) returns (ok: bool)
    requires fast.Valid() && slow.Valid() && fast != slow && fast.manager.client != slow.manager.client
    requires fast.runtimeApiEnabled && !fast.configReloadDisabled && fast.manager.client.reliable && fast.InStep()
    requires !slow.runtimeApiEnabled && !slow.restoresServerState
    requires slow.manager.cfg == fast.manager.cfg && slow.manager.resolve == fast.manager.resolve
    requires ApiCanRender(fast.manager.cfg, fast.manager.resolve, fast.manager.client.accepts, apps)
    modifies fast, slow, fast.manager.client, slow.manager.client
    ensures ok ==> fast.Running().Keys == slow.Running().Keys
    ensures ok ==> forall b :: b in fast.Running() && b in slow.Running() ==>
      View(fast.Running()[b]) == View(slow.Running()[b])
  {
    var vhostsLater := *;
    ghost var es, load;
    ok, es, load := fast.Reload(apps, vhosts, vhostsLater);
    if ok {
      ok, es, load := slow.Reload(apps, vhosts, vhostsLater);
      if ok {
        RendersLookTheSame(fast.manager.cfg, fast.manager.resolve, apps, fast.Running(), slow.Running());
      }
    }
  }

  // ---- Where the two paths part ----

  /** Two groups of one vhost without a backend of its own each: one with HTTP host h, the other
      with HTTP host k and host t of another kind. */
  function MixedApps(v: string, h: Host, k: Host, t: Host): map<string, App> {
    map[v := App(v, v, [h, k, t], None, map["x" := HostGroup([h], None), "y" := HostGroup([k, t], None)], "")]
  }

  lemma MixedAppsShow(cfg: NameConfig, v: string, h: Host, k: Host, t: Host, b: string, g: Host)
    requires v != "" && IsHTTP(h) && IsHTTP(k) && !IsHTTP(t)
    ensures Shows(cfg, MixedApps(v, h, k, t), b, g) <==> b == v && (g == h || g == k)
    ensures Wants(cfg, MixedApps(v, h, k, t), b, g) <==> b == v && g == h
  {
    hide IsHTTP;
    var apps := MixedApps(v, h, k, t);
    var x, y := (v, "x"), (v, "y");
    assert apps[v].groups["y"].hosts[1] == t;
    assert !IsHTTPHostGroup(apps[v].groups["y"].hosts);
    assert forall c :: c in apps[v].groups["x"].hosts <==> c == h;
    assert forall c :: c in apps[v].groups["y"].hosts <==> c == k || c == t;
    assert GroupBackend(cfg, apps[v], "x") == v && GroupBackend(cfg, apps[v], "y") == v;
    if b == v && g == h {
      assert GivesHost(cfg, apps, x, b, g) && FeedsHost(cfg, apps, x, b, g);
    }
    if b == v && g == k {
      assert GivesHost(cfg, apps, y, b, g);
    }
  }

  /** A fast reload that differs from a render: the API pass takes the wanted host h alone, so the
      server of k, which a render has, is gone afterwards. */
  method FastReloadLosesHost(fast: Gateway, v: string, h: Host, k: Host, t: Host, vhosts: set<string>)
      returns (ok: bool)
    requires fast.Valid() && fast.InStep() && fast.runtimeApiEnabled && !fast.configReloadDisabled &&
      fast.manager.client.reliable
    requires v != "" && IsHTTP(h) && IsHTTP(k) && !IsHTTP(t) && !SamePlace(h, k)
    requires SeparatorFree(fast.manager.cfg, [h, k]) &&
      Reachable(fast.manager.client.accepts, fast.manager.resolve, [h, k])
    modifies fast, fast.manager.client
    ensures ok ==> v in fast.Running() && fast.Running()[v].Keys == {ServerName(fast.manager.cfg, h)}
    ensures ok ==> !IsRender(fast.manager.cfg, fast.manager.resolve, MixedApps(v, h, k, t), fast.Running())
  {
    hide MixedApps, IsRender, NamesAreClear, ReachableData, AllServed, BackendNames, ApiCanRender, LosesNoHost,
      SkippedAreServed;
    hide WantsBackend, AllNamed;
    var cfg, resolve, apps := fast.manager.cfg, fast.manager.resolve, MixedApps(v, h, k, t);
    MixedAppsAreClear(cfg, resolve, fast.manager.client.accepts, v, h, k, t);
    ghost var es, load;
    ok, es, load := fast.Reload(apps, vhosts, vhosts);
    if ok {
      ServedMixedApps(cfg, resolve, v, h, k, t, fast.Running());
    }
  }

  lemma MixedAppsAreClear(cfg: NameConfig, resolve: string -> string, accepts: string -> bool, v: string, h: Host,
      k: Host, t: Host)
    requires v != "" && IsHTTP(h) && IsHTTP(k) && !IsHTTP(t)
    requires SeparatorFree(cfg, [h, k]) && Reachable(accepts, resolve, [h, k])
    ensures NamesAreClear(cfg, MixedApps(v, h, k, t)) && ReachableData(cfg, resolve, accepts, MixedApps(v, h, k, t))
  {
    hide MixedApps, Shows, NoClash, Reachable, IsHTTP, SeparatorFree;
    SeparatorFreeNamesAreClear(cfg, [h, k]);
    forall b, hosts | ListsShown(cfg, MixedApps(v, h, k, t), b, hosts)
      ensures NoClash(cfg, hosts) && Reachable(accepts, resolve, hosts)
    {
      forall g | g in hosts ensures g in [h, k] {
        MixedAppsShow(cfg, v, h, k, t, b, g);
      }
      FewerHosts(cfg, resolve, accepts, hosts, [h, k]);
    }
  }

  lemma ServedMixedApps(cfg: NameConfig, resolve: string -> string, v: string, h: Host, k: Host, t: Host,
      backends: map<string, Table>)
    requires v != "" && IsHTTP(h) && IsHTTP(k) && !IsHTTP(t) && !SamePlace(h, k) && SeparatorFree(cfg, [h, k])
    requires AllServed(cfg, resolve, MixedApps(v, h, k, t), backends)
    ensures v in backends && backends[v].Keys == {ServerName(cfg, h)}
    ensures !IsRender(cfg, resolve, MixedApps(v, h, k, t), backends)
  {
    hide MixedApps, Shows, Wants, IsHTTP, ServerName, Matches, SamePlace, BackendNames;
    var apps := MixedApps(v, h, k, t);
    forall g ensures (Wants(cfg, apps, v, g) <==> g in [h]) && (Shows(cfg, apps, v, g) <==> g in [h, k]) {
      MixedAppsShow(cfg, v, h, k, t, v, g);
    }
    assert ListsWanted(cfg, apps, v, [h]) && ListsShown(cfg, apps, v, [h, k]);
    assert Serves(cfg, resolve, [h], TableOf(backends, v));
    assert TableOf(backends, v).Keys == {ServerName(cfg, h)};
    SeparatorFreeNamesAreClear(cfg, [h, k]);
    assert ServerName(cfg, h) != ServerName(cfg, k) by {
      assert h in [h, k] && k in [h, k];
      if ServerName(cfg, h) == ServerName(cfg, k) {
        ClearMeansSamePlace(cfg, [h, k], h, k);
      }
    }
    assert k in [h, k] && ServerName(cfg, k) !in TableOf(backends, v);
    assert !Serves(cfg, resolve, [h, k], TableOf(backends, v));
  }

  /** Two vhosts: one has a group that the API pass takes, the only group of the other mixes HTTP
      host k with host t of another kind. */
  function SkippedApps(w: string, h: Host, v: string, k: Host, t: Host): map<string, App> {
    map[
      w := App(w, w, [h], None, map["x" := HostGroup([h], None)], ""),
      v := App(v, v, [k, t], None, map["y" := HostGroup([k, t], None)], "")
    ]
  }

  lemma SkippedAppsShow(cfg: NameConfig, w: string, h: Host, v: string, k: Host, t: Host, b: string, g: Host)
    requires w != "" && v != "" && w != v && IsHTTP(h) && IsHTTP(k) && !IsHTTP(t)
    ensures BackendNames(cfg, SkippedApps(w, h, v, k, t)) == {w, v}
    ensures Wants(cfg, SkippedApps(w, h, v, k, t), b, g) <==> b == w && g == h
    ensures Shows(cfg, SkippedApps(w, h, v, k, t), b, g) <==> (b == w && g == h) || (b == v && g == k)
  {
    hide IsHTTP;
    var apps := SkippedApps(w, h, v, k, t);
    assert apps[v].groups["y"].hosts[1] == t;
    assert !IsHTTPHostGroup(apps[v].groups["y"].hosts);
    assert forall c :: c in apps[w].groups["x"].hosts <==> c == h;
    assert forall c :: c in apps[v].groups["y"].hosts <==> c == k || c == t;
    assert GroupBackend(cfg, apps[w], "x") == w && GroupBackend(cfg, apps[v], "y") == v;
    assert HasBackend(apps, w, "x") && HasBackend(apps, v, "y");
    var x, y := (w, "x"), (v, "y");
    if b == w && g == h {
      assert GivesHost(cfg, apps, x, b, g) && FeedsHost(cfg, apps, x, b, g);
    }
    if b == v && g == k {
      assert GivesHost(cfg, apps, y, b, g);
    }
  }

  /** The other way to differ: these apps lose no host, but while the second backend has no servers
      a pass leaves it so, and a render gives it one. */
  lemma {:induction false} EmptySkippedBackend(cfg: NameConfig, resolve: string -> string, w: string, h: Host,
      v: string, k: Host, t: Host, backends: map<string, Table>)
    requires w != "" && v != "" && w != v && IsHTTP(h) && IsHTTP(k) && !IsHTTP(t)
    requires TableOf(backends, v) == map[]
    ensures var apps := SkippedApps(w, h, v, k, t);
      && BackendNames(cfg, apps) == {w, v} && WantsBackend(cfg, apps, w) && !WantsBackend(cfg, apps, v)
      && LosesNoHost(cfg, apps) && !SkippedAreServed(cfg, resolve, apps, backends)
      && (v in backends ==> !IsRender(cfg, resolve, apps, backends))
  {
    hide SkippedApps, Wants, Shows, BackendNames, ServerName, Matches, IsHTTP;
    var apps := SkippedApps(w, h, v, k, t);
    forall b, g
      ensures Wants(cfg, apps, b, g) <==> b == w && g == h
      ensures Shows(cfg, apps, b, g) <==> (b == w && g == h) || (b == v && g == k)
    {
      SkippedAppsShow(cfg, w, h, v, k, t, b, g);
    }
    SkippedAppsShow(cfg, w, h, v, k, t, w, h);
    assert Wants(cfg, apps, w, h) && SamePlace(h, h);
    assert ListsShown(cfg, apps, v, [k]);
    assert k in [k] && !Serves(cfg, resolve, [k], TableOf(backends, v));
  }
}
