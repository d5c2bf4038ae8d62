/** Turning the apps that a controller reports into one entry per vhost, with its hosts grouped by
    routing tag; the slices behind it share arrays. */
module Aggregation {
  import opened GoStrings
  import opened GoSlices
  import opened StableNames

  /** An app as the controller reports it. */
  datatype RawApp = RawApp(vhost: string, tags: map<string, string>, hosts: seq<Host>)

  datatype DroveConfig = DroveConfig(realm: string, realmSuffix: string, routingTag: string)

  /** The contents of an app's slices. */
  datatype Entry = Entry(hosts: seq<Host>, groups: map<string, seq<Host>>)

  // ---- What is taken and where it goes ----

  function Realms(cfg: DroveConfig): seq<string> {
    if cfg.realm == "" then [] else Split(cfg.realm, ',')
  }

  predicate MatchingVhost(vhost: string, realms: seq<string>) {
    realms == [] || exists i :: 0 <= i < |realms| && vhost == TrimSpace(realms[i])
  }

  function VhostOf(app: RawApp): string {
    ToLower(app.vhost)
  }

  predicate Accepted(cfg: DroveConfig, app: RawApp) {
    app.hosts != [] &&
    (MatchingVhost(VhostOf(app), Realms(cfg)) || (cfg.realmSuffix != "" && HasSuffix(VhostOf(app), cfg.realmSuffix)))
  }

  function GroupName(cfg: DroveConfig, app: RawApp): string {
    if cfg.routingTag != "" && cfg.routingTag in app.tags && app.tags[cfg.routingTag] != ""
    then ToLower(app.tags[cfg.routingTag]) else VhostOf(app)
  }

  function LowerHost(h: Host): Host {
    h.(portType := ToLower(h.portType))
  }

  function LowerHosts(hosts: seq<Host>): (r: seq<Host>)
    ensures |r| == |hosts|
  {
    seq(|hosts|, i requires 0 <= i < |hosts| => LowerHost(hosts[i]))
  }

  /** The hosts that the reports give a vhost, or one of its groups; later reports come first. */
  function HostsFor(cfg: DroveConfig, apps: seq<RawApp>, vhost: string, group: Option<string>): seq<Host> {
    if apps == [] then []
    else
      var app := apps[|apps| - 1];
      (if Accepted(cfg, app) && VhostOf(app) == vhost &&
        (group == None || group == Some(GroupName(cfg, app))) then LowerHosts(app.hosts) else []) +
      HostsFor(cfg, apps[..|apps| - 1], vhost, group)
  }

  ghost predicate Reports(cfg: DroveConfig, apps: seq<RawApp>, vhost: string) {
    exists i :: 0 <= i < |apps| && Accepted(cfg, apps[i]) && VhostOf(apps[i]) == vhost
  }

  // ---- One report ----

  /** Both appends start from the same slice. If all the app's hosts fit into its spare room, they
      are written over what the group's append has just put there. */
  predicate Overwrites(e: Entry, group: string, spare: nat) {
    group in e.groups && |e.hosts| <= spare && |e.groups[group]| <= |e.hosts|
  }

  /** What the group ends up with after its own new hosts. */
  function Tail(e: Entry, group: string, spare: nat): seq<Host> {
    if group !in e.groups then []
    else if Overwrites(e, group, spare) then e.hosts[..|e.groups[group]|]
    else e.groups[group]
  }

  function Merged(e: Entry, group: string, hosts: seq<Host>, spare: nat): Entry {
    Entry(hosts + e.hosts, e.groups[group := hosts + Tail(e, group, spare)])
  }

  function Added(cfg: DroveConfig, entries: map<string, Entry>, app: RawApp, spare: nat): map<string, Entry> {
    if !Accepted(cfg, app) then entries
    else
      var vhost, group, hosts := VhostOf(app), GroupName(cfg, app), LowerHosts(app.hosts);
      entries[vhost := if vhost in entries then Merged(entries[vhost], group, hosts, spare)
                       else Entry(hosts, map[group := hosts])]
  }

  /** All reports in order; `spares` is the spare room that each new slice happens to have. */
  function SyncAll(cfg: DroveConfig, apps: seq<RawApp>, spares: seq<nat>): map<string, Entry>
    requires |spares| == |apps|
  {
    if apps == [] then map[]
    else
      var n := |apps| - 1;
      Added(cfg, SyncAll(cfg, apps[..n], spares[..n]), apps[n], spares[n])
  }

  // ---- An app's hosts are always right ----

  /** Groups are not empty and no larger than the app. */
  predicate Shaped(e: Entry) {
    forall g :: g in e.groups ==> e.groups[g] != [] && |e.groups[g]| <= |e.hosts|
  }

  lemma {:induction false} HostsAreConserved(cfg: DroveConfig, apps: seq<RawApp>, spares: seq<nat>, vhost: string)
    requires |spares| == |apps|
    ensures vhost in SyncAll(cfg, apps, spares) <==> Reports(cfg, apps, vhost)
    ensures vhost in SyncAll(cfg, apps, spares) ==>
      SyncAll(cfg, apps, spares)[vhost].hosts == HostsFor(cfg, apps, vhost, None)
    ensures vhost !in SyncAll(cfg, apps, spares) ==> HostsFor(cfg, apps, vhost, None) == []
  {
    hide Accepted, VhostOf, GroupName, LowerHosts;
    if apps != [] {
      var n := |apps| - 1;
      HostsAreConserved(cfg, apps[..n], spares[..n], vhost);
      assert forall i :: 0 <= i < n ==> apps[..n][i] == apps[i];
      if Reports(cfg, apps[..n], vhost) {
        var i :| 0 <= i < n && Accepted(cfg, apps[..n][i]) && VhostOf(apps[..n][i]) == vhost;
        assert Accepted(cfg, apps[i]) && VhostOf(apps[i]) == vhost;
      }
    }
  }

  /** Every group has as many hosts as it should, whatever was overwritten. */
  lemma {:induction false} GroupSizesAreRight(cfg: DroveConfig, apps: seq<RawApp>, spares: seq<nat>, vhost: string)
    requires |spares| == |apps| && vhost in SyncAll(cfg, apps, spares)
    ensures var e := SyncAll(cfg, apps, spares)[vhost];
      Shaped(e) && e.groups != map[] && forall g ::
        |HostsFor(cfg, apps, vhost, Some(g))| == if g in e.groups then |e.groups[g]| else 0
  {
    hide Accepted, VhostOf, GroupName, LowerHosts;
    var n := |apps| - 1;
    var before := SyncAll(cfg, apps[..n], spares[..n]);
    AcceptedHasHosts(cfg, apps[n]);
    if vhost in before {
      GroupSizesAreRight(cfg, apps[..n], spares[..n], vhost);
    } else {
      HostsAreConserved(cfg, apps[..n], spares[..n], vhost);
      var e := SyncAll(cfg, apps, spares)[vhost];
      forall g ensures |HostsFor(cfg, apps, vhost, Some(g))| == if g in e.groups then |e.groups[g]| else 0 {
        NoReportsNoHosts(cfg, apps[..n], vhost, Some(g));
      }
    }
  }

  lemma AcceptedHasHosts(cfg: DroveConfig, app: RawApp)
    ensures Accepted(cfg, app) ==> |LowerHosts(app.hosts)| > 0
  {
  }

  lemma {:induction false} NoReportsNoHosts(cfg: DroveConfig, apps: seq<RawApp>, vhost: string, group: Option<string>)
    requires !Reports(cfg, apps, vhost)
    ensures HostsFor(cfg, apps, vhost, group) == []
  {
    hide Accepted, VhostOf, GroupName;
    if apps != [] {
      var n := |apps| - 1;
      assert apps[..n] + [apps[n]] == apps;
      forall i | 0 <= i < n ensures !(Accepted(cfg, apps[..n][i]) && VhostOf(apps[..n][i]) == vhost) {
        assert apps[..n][i] == apps[i];
      }
      NoReportsNoHosts(cfg, apps[..n], vhost, group);
    }
  }

  // ---- Whether its groups share them out ----

  /** All hosts of all groups. */
  ghost function Total(groups: map<string, seq<Host>>): multiset<Host> {
    if groups == map[] then multiset{}
    else
      var g :| g in groups;
      multiset(groups[g]) + Total(groups - {g})
  }

  lemma {:induction false} TotalWithout(groups: map<string, seq<Host>>, g: string)
    requires g in groups
    ensures Total(groups) == multiset(groups[g]) + Total(groups - {g})
    decreases |groups|
  {
    var k :| k in groups && Total(groups) == multiset(groups[k]) + Total(groups - {k});
    if k != g {
      SmallerMap(groups, k);
      SmallerMap(groups, g);
      TotalWithout(groups - {k}, g);
      TotalWithout(groups - {g}, k);
      assert groups - {k} - {g} == groups - {g} - {k};
    }
  }

  lemma SmallerMap(groups: map<string, seq<Host>>, g: string)
    requires g in groups
    ensures |groups - {g}| < |groups|
  {
    assert groups.Keys == (groups - {g}).Keys + {g};
    assert |groups.Keys| == |(groups - {g}).Keys| + 1;
  }

  lemma TotalUpdate(groups: map<string, seq<Host>>, g: string, hosts: seq<Host>)
    ensures Total(groups[g := hosts]) == multiset(hosts) + Total(groups - {g})
  {
    TotalWithout(groups[g := hosts], g);
    assert groups[g := hosts] - {g} == groups - {g};
  }

  /** The groups share out the app's hosts: each is in one group, as often as it is there. */
  ghost predicate Partitioned(e: Entry) {
    Total(e.groups) == multiset(e.hosts)
  }

  ghost predicate AllPartitioned(entries: map<string, Entry>) {
    forall vhost :: vhost in entries ==> Partitioned(entries[vhost])
  }

  /** An overwritten tail does no harm when it holds the same hosts. */
  ghost predicate Harmless(e: Entry, group: string, spare: nat) {
    multiset(Tail(e, group, spare)) == multiset(if group in e.groups then e.groups[group] else [])
  }

  lemma MergeKeepsPartitionIff(e: Entry, group: string, hosts: seq<Host>, spare: nat)
    requires Partitioned(e)
    ensures Partitioned(Merged(e, group, hosts, spare)) <==> Harmless(e, group, spare)
  {
    var tail := Tail(e, group, spare);
    TotalUpdate(e.groups, group, hosts + tail);
    if group in e.groups {
      TotalWithout(e.groups, group);
    } else {
      assert e.groups - {group} == e.groups;
    }
    assert multiset(hosts + tail) == multiset(hosts) + multiset(tail);
    assert multiset(hosts + e.hosts) == multiset(hosts) + multiset(e.hosts);
    var rest, own := Total(e.groups - {group}), multiset(if group in e.groups then e.groups[group] else []);
    Cancel(multiset(hosts), multiset(tail), own, rest);
  }

  lemma Cancel(a: multiset<Host>, b: multiset<Host>, c: multiset<Host>, rest: multiset<Host>)
    ensures a + b + rest == a + (c + rest) <==> b == c
  {
    if a + b + rest == a + (c + rest) {
      forall h ensures b[h] == c[h] {
        assert (a + b + rest)[h] == (a + (c + rest))[h];
      }
    }
  }

  ghost predicate HarmlessReport(cfg: DroveConfig, entries: map<string, Entry>, app: RawApp, spare: nat) {
    Accepted(cfg, app) && VhostOf(app) in entries ==> Harmless(entries[VhostOf(app)], GroupName(cfg, app), spare)
  }

  lemma NewEntryIsPartitioned(group: string, hosts: seq<Host>)
    ensures Partitioned(Entry(hosts, map[group := hosts]))
  {
    var none: map<string, seq<Host>> := map[];
    TotalUpdate(none, group, hosts);
    assert none[group := hosts] == map[group := hosts];
    assert none - {group} == none;
  }

  lemma AddedKeepsPartitionIff(cfg: DroveConfig, entries: map<string, Entry>, app: RawApp, spare: nat)
    requires AllPartitioned(entries)
    ensures AllPartitioned(Added(cfg, entries, app, spare)) <==> HarmlessReport(cfg, entries, app, spare)
  {
    hide Accepted, VhostOf, GroupName, LowerHosts, Partitioned, Merged, Harmless;
    if Accepted(cfg, app) {
      var vhost, group, hosts := VhostOf(app), GroupName(cfg, app), LowerHosts(app.hosts);
      if vhost in entries {
        MergeKeepsPartitionIff(entries[vhost], group, hosts, spare);
      } else {
        NewEntryIsPartitioned(group, hosts);
      }
      assert vhost in Added(cfg, entries, app, spare);
    }
  }

  /** No report of the run overwrites a group's tail with other hosts. */
  ghost predicate HarmlessRun(cfg: DroveConfig, apps: seq<RawApp>, spares: seq<nat>)
    requires |spares| == |apps|
  {
    apps == [] ||
    var n := |apps| - 1;
    HarmlessRun(cfg, apps[..n], spares[..n]) &&
      HarmlessReport(cfg, SyncAll(cfg, apps[..n], spares[..n]), apps[n], spares[n])
  }

  /** Group partition, exactly: a run keeps every app shared out among its groups at every point if
      and only if each of its reports is harmless. */
  lemma {:induction false} PartitionedThroughoutIff(cfg: DroveConfig, apps: seq<RawApp>, spares: seq<nat>)
    requires |spares| == |apps|
    ensures HarmlessRun(cfg, apps, spares) <==> forall n :: 0 <= n <= |apps| ==>
      AllPartitioned(SyncAll(cfg, apps[..n], spares[..n]))
  {
    hide HarmlessReport, AllPartitioned, Added;
    if apps == [] {
      assert AllPartitioned(SyncAll(cfg, [], [])) by {
        assert SyncAll(cfg, [], []) == map[];
        NoEntriesArePartitioned();
      }
      assert apps[..0] == [] && spares[..0] == [];
    } else {
      var n := |apps| - 1;
      PartitionedThroughoutIff(cfg, apps[..n], spares[..n]);
      assert forall m :: 0 <= m <= n ==> apps[..n][..m] == apps[..m] && spares[..n][..m] == spares[..m];
      assert apps[..n + 1] == apps && spares[..n + 1] == spares;
      if AllPartitioned(SyncAll(cfg, apps[..n], spares[..n])) {
        AddedKeepsPartitionIff(cfg, SyncAll(cfg, apps[..n], spares[..n]), apps[n], spares[n]);
      }
    }
  }

  lemma NoEntriesArePartitioned()
    ensures AllPartitioned(map[])
  {
  }

  function GroupContents(entries: map<string, Entry>, vhost: string, group: string): seq<Host> {
    if vhost in entries && group in entries[vhost].groups then entries[vhost].groups[group] else []
  }

  /** The hosts that one report has for a group of a vhost. */
  function Piece(cfg: DroveConfig, app: RawApp, vhost: string, group: string): seq<Host> {
    if Accepted(cfg, app) && VhostOf(app) == vhost && GroupName(cfg, app) == group then LowerHosts(app.hosts) else []
  }

  lemma HarmlessReportAdds(cfg: DroveConfig, entries: map<string, Entry>, app: RawApp, spare: nat, vhost: string,
      group: string)
    requires HarmlessReport(cfg, entries, app, spare)
    ensures multiset(GroupContents(Added(cfg, entries, app, spare), vhost, group))
         == multiset(Piece(cfg, app, vhost, group)) + multiset(GroupContents(entries, vhost, group))
  {
    hide Accepted, VhostOf, GroupName, LowerHosts, Tail;
    if Accepted(cfg, app) && VhostOf(app) == vhost && GroupName(cfg, app) == group && vhost in entries {
      var hosts, tail := LowerHosts(app.hosts), Tail(entries[vhost], group, spare);
      assert multiset(hosts + tail) == multiset(hosts) + multiset(tail);
    }
  }

  lemma HostsForGrows(cfg: DroveConfig, apps: seq<RawApp>, vhost: string, group: string)
    requires apps != []
    ensures var n := |apps| - 1;
      multiset(HostsFor(cfg, apps, vhost, Some(group)))
      == multiset(Piece(cfg, apps[n], vhost, group)) + multiset(HostsFor(cfg, apps[..n], vhost, Some(group)))
  {
    hide Accepted, VhostOf, GroupName, LowerHosts;
    var n := |apps| - 1;
    var piece, earlier := Piece(cfg, apps[n], vhost, group), HostsFor(cfg, apps[..n], vhost, Some(group));
    assert HostsFor(cfg, apps, vhost, Some(group)) == piece + earlier;
    assert multiset(piece + earlier) == multiset(piece) + multiset(earlier);
  }

  /** In a harmless run every group has just the hosts reported for it. */
  lemma {:induction false} GroupsAreConserved(cfg: DroveConfig, apps: seq<RawApp>, spares: seq<nat>,
      vhost: string, group: string)
    requires |spares| == |apps| && HarmlessRun(cfg, apps, spares)
    ensures multiset(HostsFor(cfg, apps, vhost, Some(group)))
      == multiset(GroupContents(SyncAll(cfg, apps, spares), vhost, group))
  {
    if apps != [] {
      hide Accepted, VhostOf, GroupName, LowerHosts, Added, GroupContents, HarmlessReport, HostsFor, Piece;
      var n := |apps| - 1;
      GroupsAreConserved(cfg, apps[..n], spares[..n], vhost, group);
      HarmlessReportAdds(cfg, SyncAll(cfg, apps[..n], spares[..n]), apps[n], spares[n], vhost, group);
      HostsForGrows(cfg, apps, vhost, group);
    }
  }

  /** A vhost whose reports all fall into one group is always right, in content and in order. */
  lemma {:induction false} OneGroupIsExact(cfg: DroveConfig, apps: seq<RawApp>, spares: seq<nat>, vhost: string,
      group: string)
    requires |spares| == |apps| && vhost in SyncAll(cfg, apps, spares)
    requires forall i :: 0 <= i < |apps| && Accepted(cfg, apps[i]) && VhostOf(apps[i]) == vhost ==>
      GroupName(cfg, apps[i]) == group
    ensures var e := SyncAll(cfg, apps, spares)[vhost]; e.groups == map[group := e.hosts]
  {
    hide Accepted, VhostOf, GroupName, LowerHosts;
    var n := |apps| - 1;
    assert forall i :: 0 <= i < n ==> apps[..n][i] == apps[i];
    var before := SyncAll(cfg, apps[..n], spares[..n]);
    if vhost in before {
      OneGroupIsExact(cfg, apps[..n], spares[..n], vhost, group);
      var e := before[vhost];
      assert e.hosts[..|e.hosts|] == e.hosts;
    }
  }

  /** So it is without a routing tag: one group a vhost, named after it. */
  lemma WithoutRoutingTagExact(cfg: DroveConfig, apps: seq<RawApp>, spares: seq<nat>, vhost: string)
    requires |spares| == |apps| && cfg.routingTag == "" && vhost in SyncAll(cfg, apps, spares)
    ensures var e := SyncAll(cfg, apps, spares)[vhost]; e.groups == map[vhost := e.hosts]
  {
    hide Accepted, VhostOf, SyncAll;
    OneGroupIsExact(cfg, apps, spares, vhost, vhost);
  }

  // ---- The same, told from the reports field by field ----

  /** The namespace has no realm, or names the vhost in it, or the vhost ends in its suffix. */
  ghost predicate InRealm(cfg: DroveConfig, vhost: string) {
    || cfg.realm == ""
    || (exists i :: 0 <= i < |Split(cfg.realm, ',')| && TrimSpace(Split(cfg.realm, ',')[i]) == vhost)
    || (cfg.realmSuffix != "" && exists front :: vhost == front + cfg.realmSuffix)
  }

  ghost predicate IsFor(cfg: DroveConfig, app: RawApp, vhost: string) {
    app.hosts != [] && ToLower(app.vhost) == vhost && InRealm(cfg, vhost)
  }

  /** The group of a report: the value of its routing tag, if it has one, or else the vhost. */
  ghost predicate IsInGroup(cfg: DroveConfig, app: RawApp, vhost: string, group: string) {
    if cfg.routingTag != "" && cfg.routingTag in app.tags && app.tags[cfg.routingTag] != ""
    then group == ToLower(app.tags[cfg.routingTag]) else group == vhost
  }

  /** The hosts that the reports of a vhost have, the last report's first. */
  ghost function ReportedHosts(cfg: DroveConfig, apps: seq<RawApp>, vhost: string): seq<Host> {
    if apps == [] then []
    else
      var n := |apps| - 1;
      var hosts := apps[n].hosts;
      (if IsFor(cfg, apps[n], vhost)
       then seq(|hosts|, i requires 0 <= i < |hosts| => Host(hosts[i].host, hosts[i].port, ToLower(hosts[i].portType)))
       else []) + ReportedHosts(cfg, apps[..n], vhost)
  }

  lemma AcceptedIff(cfg: DroveConfig, app: RawApp, vhost: string)
    ensures Accepted(cfg, app) && VhostOf(app) == vhost <==> IsFor(cfg, app, vhost)
  {
    hide Split, TrimSpace, ToLower;
    var v := ToLower(app.vhost);
    if HasSuffix(v, cfg.realmSuffix) {
      assert v == v[..|v| - |cfg.realmSuffix|] + cfg.realmSuffix;
    }
    if front :| v == front + cfg.realmSuffix {
      assert v[|v| - |cfg.realmSuffix|..] == cfg.realmSuffix;
    }
  }

  lemma LoweredHosts(hosts: seq<Host>)
    ensures LowerHosts(hosts)
         == seq(|hosts|, i requires 0 <= i < |hosts| => Host(hosts[i].host, hosts[i].port, ToLower(hosts[i].portType)))
  {
    hide ToLower;
  }

  /** What a sync stores: the vhosts with a report that has hosts and passes the realm, each with the
      hosts of just these reports. */
  lemma {:induction false} StoredHosts(cfg: DroveConfig, apps: seq<RawApp>, spares: seq<nat>, vhost: string)
    requires |spares| == |apps|
    ensures vhost in SyncAll(cfg, apps, spares) <==> exists i :: 0 <= i < |apps| && IsFor(cfg, apps[i], vhost)
    ensures vhost in SyncAll(cfg, apps, spares) ==>
      SyncAll(cfg, apps, spares)[vhost].hosts == ReportedHosts(cfg, apps, vhost)
  {
    hide IsFor, Accepted, VhostOf, SyncAll, LowerHosts;
    HostsAreConserved(cfg, apps, spares, vhost);
    SameReportedHosts(cfg, apps, vhost);
    forall i | 0 <= i < |apps|
      ensures Accepted(cfg, apps[i]) && VhostOf(apps[i]) == vhost <==> IsFor(cfg, apps[i], vhost)
    {
      AcceptedIff(cfg, apps[i], vhost);
    }
  }

  lemma {:induction false} SameReportedHosts(cfg: DroveConfig, apps: seq<RawApp>, vhost: string)
    ensures HostsFor(cfg, apps, vhost, None) == ReportedHosts(cfg, apps, vhost)
  {
    hide IsFor, Accepted, VhostOf, LowerHosts, GroupName;
    if apps != [] {
      var n := |apps| - 1;
      SameReportedHosts(cfg, apps[..n], vhost);
      AcceptedIff(cfg, apps[n], vhost);
      LoweredHosts(apps[n].hosts);
    }
  }

  /** And its groups are those of these reports. */
  lemma {:induction false} StoredGroups(cfg: DroveConfig, apps: seq<RawApp>, spares: seq<nat>, vhost: string,
      group: string)
    requires |spares| == |apps| && vhost in SyncAll(cfg, apps, spares)
    ensures group in SyncAll(cfg, apps, spares)[vhost].groups
       <==> exists i :: 0 <= i < |apps| && IsFor(cfg, apps[i], vhost) && IsInGroup(cfg, apps[i], vhost, group)
  {
    hide IsFor, IsInGroup, Accepted, VhostOf, LowerHosts, GroupName, Tail;
    var n := |apps| - 1;
    var before := SyncAll(cfg, apps[..n], spares[..n]);
    AcceptedIff(cfg, apps[n], vhost);
    GroupIff(cfg, apps[n], vhost, group);
    assert forall i :: 0 <= i < n ==> apps[..n][i] == apps[i];
    if vhost in before {
      StoredGroups(cfg, apps[..n], spares[..n], vhost, group);
    } else {
      StoredHosts(cfg, apps[..n], spares[..n], vhost);
    }
  }

  lemma GroupIff(cfg: DroveConfig, app: RawApp, vhost: string, group: string)
    ensures VhostOf(app) == vhost ==> (GroupName(cfg, app) == group <==> IsInGroup(cfg, app, vhost, group))
  {
    hide ToLower;
  }

  /** With a routing tag it can go wrong. Three reports for one vhost: one host for group "y", one
      for "x", then five more for "y" in a slice of capacity 8. The old host of "y" is lost to
      the host of "x". */
  lemma OverwrittenGroup(vhost: string, tag: string, h: Host, k: Host, five: seq<Host>)
    requires tag != "" && LowerHost(h) != LowerHost(k) && |five| == 5
    ensures var cfg := DroveConfig("", "", tag);
      var reports := [RawApp(vhost, map[tag := "y"], [h]), RawApp(vhost, map[tag := "x"], [k]),
        RawApp(vhost, map[tag := "y"], five)];
      var entries := SyncAll(cfg, reports, [0, 0, 3]);
      && entries == map[ToLower(vhost) := OverwrittenEntry(LowerHost(h), LowerHost(k), LowerHosts(five))]
      && !Partitioned(entries[ToLower(vhost)])
  {
    hide Partitioned, Merged, ToLower, LowerHost;
    var cfg := DroveConfig("", "", tag);
    var r1, r2, r3 := RawApp(vhost, map[tag := "y"], [h]), RawApp(vhost, map[tag := "x"], [k]),
      RawApp(vhost, map[tag := "y"], five);
    var v, lh, lk := ToLower(vhost), LowerHost(h), LowerHost(k);
    LetterNames();
    assert LowerHosts([h]) == [lh] && LowerHosts([k]) == [lk];
    assert [r1, r2, r3][..2] == [r1, r2] && [0, 0, 3][..2] == [0, 0];
    assert [r1, r2][..1] == [r1] && [0, 0][..1] == [0];
    assert [r1][..0] == [] && [0][..0] == [];
    SyncNothing(cfg);
    var e0 := Entry([lh], map["y" := [lh]]);
    assert SyncAll(cfg, [r1], [0]) == map[v := e0];
    assert SyncAll(cfg, [r1, r2], [0, 0]) == map[v := Merged(e0, "x", [lk], 0)];
    assert SyncAll(cfg, [r1, r2, r3], [0, 0, 3])
      == map[v := Merged(Merged(e0, "x", [lk], 0), "y", LowerHosts(five), 3)];
    OverwritingMerges(lh, lk, LowerHosts(five));
  }

  lemma LetterNames()
    ensures ToLower("x") == "x" && ToLower("y") == "y"
  {
    assert ("x")[1..] == "" && ("y")[1..] == "";
  }

  lemma SyncNothing(cfg: DroveConfig)
    ensures SyncAll(cfg, [], []) == map[]
  {
  }

  function OverwrittenEntry(h: Host, k: Host, five: seq<Host>): Entry {
    Entry(five + [k, h], map["y" := five + [k], "x" := [k]])
  }

  lemma OverwritingMerges(h: Host, k: Host, five: seq<Host>)
    requires h != k && |five| == 5
    ensures Merged(Merged(Entry([h], map["y" := [h]]), "x", [k], 0), "y", five, 3) == OverwrittenEntry(h, k, five)
    ensures !Partitioned(OverwrittenEntry(h, k, five))
  {
    hide Partitioned;
    var e0, e1 := Entry([h], map["y" := [h]]), Entry([k, h], map["y" := [h], "x" := [k]]);
    assert Merged(e0, "x", [k], 0) == e1 && Harmless(e0, "x", 0) by {
      assert Tail(e0, "x", 0) == [] && [k] + [] == [k];
    }
    NewEntryIsPartitioned("y", [h]);
    MergeKeepsPartitionIff(e0, "x", [k], 0);
    MergeKeepsPartitionIff(e1, "y", five, 3);
    assert [k, h][..1] == [k] && Tail(e1, "y", 3) == [k];
    assert !Harmless(e1, "y", 3) by {
      assert multiset([k])[h] == 0 && multiset([h])[h] == 1;
    }
  }

  // ---- The code, on slices ----

  datatype SliceApp = SliceApp(hosts: Slice<Host>, groups: map<string, Slice<Host>>) {
    ghost predicate Valid() {
      hosts.Valid() && forall g :: g in groups ==> groups[g].Valid()
    }

    ghost function Arrays(): set<array<Host>> {
      {hosts.data} + set g | g in groups :: groups[g].data
    }

    ghost function Contents(): Entry
      requires Valid()
      reads Arrays()
    {
      Entry(hosts.Contents(), map g | g in groups :: groups[g].Contents())
    }
  }

  ghost predicate AllValid(apps: map<string, SliceApp>) {
    forall vhost :: vhost in apps ==> apps[vhost].Valid()
  }

  ghost function AllArrays(apps: map<string, SliceApp>): set<array<Host>> {
    set vhost, a | vhost in apps && a in apps[vhost].Arrays() :: a
  }

  ghost function Entries(apps: map<string, SliceApp>): map<string, Entry>
    requires AllValid(apps)
    reads AllArrays(apps)
  {
    map vhost | vhost in apps :: apps[vhost].Contents()
  }

  /** newapp.Hosts: one append a host. */
  method BuildHosts(hosts: seq<Host>) returns (s: Slice<Host>)
    ensures s.Valid() && fresh(s.data)
    ensures s.Contents() == LowerHosts(hosts)
  {
    s := Nil();
    for i := 0 to |hosts|
      invariant s.Valid() && fresh(s.data)
      invariant s.Contents() == LowerHosts(hosts)[..i]
    {
      s := Append(s, [LowerHost(hosts[i])]);
    }
  }

  /** The two appends for a vhost that is there already; both start from `hosts`. */
  method MergeSlices(existing: SliceApp, group: string, hosts: Slice<Host>) returns (app: SliceApp)
    requires existing.Valid() && Shaped(existing.Contents())
    requires hosts.Valid() && hosts.data !in existing.Arrays()
    modifies hosts.data
    ensures app.Valid()
    ensures forall a :: a in app.Arrays() ==> a in existing.Arrays() || a == hosts.data || fresh(a)
    ensures app.Contents() == Merged(old(existing.Contents()), group, old(hosts.Contents()), hosts.Spare())
  {
    ghost var base := hosts.Contents();
    var groups := existing.groups;
    if group in groups {
      assert existing.Contents().groups[group] == groups[group].Contents();
      var merged, all := AppendTwice(hosts, groups[group].Contents(), existing.hosts.Contents());
      app := SliceApp(all, groups[group := merged]);
    } else {
      var all := Append(hosts, existing.hosts.Contents());
      app := SliceApp(all, groups[group := hosts]);
      assert hosts.Contents() == base + [];
    }
  }

  /** The second append may write over the tail of the first. */
  method AppendTwice(s: Slice<Host>, xs: seq<Host>, ys: seq<Host>) returns (r1: Slice<Host>, r2: Slice<Host>)
    requires s.Valid() && |xs| <= |ys|
    modifies s.data
    ensures r1.Valid() && r2.Valid()
    ensures r1.data == s.data || fresh(r1.data)
    ensures r2.data == s.data || fresh(r2.data)
    ensures r1.Contents() == old(s.Contents()) + if |ys| <= s.Spare() then ys[..|xs|] else xs
    ensures r2.Contents() == old(s.Contents()) + ys
    ensures s.Contents() == old(s.Contents())
  {
    ghost var base := s.Contents();
    r1 := Append(s, xs);
    assert s.Contents() == base;
    r2 := Append(s, ys);
    if |ys| <= s.Spare() {
      assert s.data[..r1.len] == s.data[..][..r1.len];
      assert s.data[..r1.len] == base + ys[..|xs|];
    }
    assert s.Contents() == base by {
      assert s.data[..s.len] == s.data[..][..s.len];
    }
  }

  method NewApp(group: string, hosts: Slice<Host>) returns (app: SliceApp)
    requires hosts.Valid()
    ensures app.Valid() && app.Arrays() == {hosts.data}
    ensures app.Contents() == Entry(hosts.Contents(), map[group := hosts.Contents()])
  {
    app := SliceApp(hosts, map[group := hosts]);
  }

  /** One accepted report. */
  method AddReport(apps: map<string, SliceApp>, vhost: string, group: string,
      hosts: Slice<Host>) returns (apps': map<string, SliceApp>)
    requires AllValid(apps) && hosts.Valid() && hosts.data !in AllArrays(apps)
    requires vhost in apps ==> Shaped(apps[vhost].Contents())
    modifies hosts.data
    ensures AllValid(apps') && apps'.Keys == apps.Keys + {vhost}
    ensures forall a :: a in AllArrays(apps') ==> a in AllArrays(apps) || a == hosts.data || fresh(a)
    ensures Entries(apps') == old(Entries(apps))[vhost :=
      if vhost in apps then Merged(old(apps[vhost].Contents()), group, old(hosts.Contents()), hosts.Spare())
      else Entry(old(hosts.Contents()), map[group := old(hosts.Contents())])]
  {
    hide Merged, Shaped, SliceApp.Contents, SliceApp.Valid;
    ghost var before := Entries(apps);
    var merged: SliceApp;
    if vhost in apps {
      ArraysOf(apps, vhost);
      merged := MergeSlices(apps[vhost], group, hosts);
    } else {
      merged := NewApp(group, hosts);
    }
    assert Entries(apps) == before;
    UpdateApp(apps, vhost, merged);
    apps' := apps[vhost := merged];
  }

  lemma ArraysOf(apps: map<string, SliceApp>, vhost: string)
    requires vhost in apps && AllValid(apps)
    ensures apps[vhost].Valid() && apps[vhost].Arrays() <= AllArrays(apps)
    ensures Entries(apps)[vhost] == apps[vhost].Contents()
  {
  }

  lemma UpdateApp(apps: map<string, SliceApp>, vhost: string, app: SliceApp)
    requires AllValid(apps) && app.Valid()
    ensures AllValid(apps[vhost := app])
    ensures AllArrays(apps[vhost := app]) <= AllArrays(apps) + app.Arrays()
    ensures Entries(apps[vhost := app]) == Entries(apps)[vhost := app.Contents()]
  {
    hide SliceApp.Contents, SliceApp.Valid, SliceApp.Arrays;
  }

  /** One report, accepted or not. */
  method AddIfAccepted(cfg: DroveConfig, apps: map<string, SliceApp>,
      app: RawApp) returns (apps': map<string, SliceApp>, ghost spare: nat)
    requires AllValid(apps) && forall vhost :: vhost in Entries(apps) ==> Shaped(Entries(apps)[vhost])
    ensures AllValid(apps') && forall a :: a in AllArrays(apps') ==> a in AllArrays(apps) || fresh(a)
    ensures Entries(apps') == Added(cfg, old(Entries(apps)), app, spare)
    ensures apps'.Keys == apps.Keys + if Accepted(cfg, app) then {VhostOf(app)} else {}
  {
    hide Accepted, VhostOf, GroupName, LowerHosts, Merged, Shaped, SliceApp.Contents;
    apps', spare := apps, 0;
    if Accepted(cfg, app) {
      ghost var arrays := AllArrays(apps);
      var hosts := BuildHosts(app.hosts);
      assert hosts.data !in arrays;
      assert Entries(apps) == old(Entries(apps));
      if VhostOf(app) in apps {
        ArraysOf(apps, VhostOf(app));
      }
      spare := hosts.Spare();
      label L:
      apps' := AddReport(apps, VhostOf(app), GroupName(cfg, app), hosts);
      assert forall a :: a in AllArrays(apps') ==> a in arrays || a == hosts.data || fresh@L(a);
    }
  }

  /** syncAppsAndVhosts: one entry a vhost; all its arrays are its own. */
  method SyncAppsAndVhosts(cfg: DroveConfig, jsonApps: seq<RawApp>)
    returns (apps: map<string, SliceApp>, vhosts: set<string>, ghost spares: seq<nat>)
    ensures AllValid(apps) && fresh(AllArrays(apps))
    ensures |spares| == |jsonApps| && Entries(apps) == SyncAll(cfg, jsonApps, spares)
    ensures vhosts == apps.Keys
    ensures forall v :: v in vhosts <==> exists i :: 0 <= i < |jsonApps| && IsFor(cfg, jsonApps[i], v)
    ensures forall v :: v in vhosts ==> Entries(apps)[v].hosts == ReportedHosts(cfg, jsonApps, v)
  {
    hide Accepted, VhostOf, Added, Shaped, AllArrays, AllValid, IsFor, ReportedHosts;
    apps, vhosts, spares := map[], {}, [];
    assert AllValid(apps) && AllArrays(apps) == {} by {
      NoArrays();
    }
    for i := 0 to |jsonApps|
      invariant AllValid(apps) && forall a :: a in AllArrays(apps) ==> fresh(a)
      invariant |spares| == i && Entries(apps) == SyncAll(cfg, jsonApps[..i], spares)
      invariant vhosts == apps.Keys
    {
      var app := jsonApps[i];
      if Accepted(cfg, app) {
        vhosts := vhosts + {VhostOf(app)};
      }
      forall vhost | vhost in Entries(apps) ensures Shaped(Entries(apps)[vhost]) {
        GroupSizesAreRight(cfg, jsonApps[..i], spares, vhost);
      }
      ghost var spare, before := 0, AllArrays(apps);
      label L:
      apps, spare := AddIfAccepted(cfg, apps, app);
      assert forall a :: a in AllArrays(apps) ==> a in before || fresh@L(a);
      assert jsonApps[..i + 1][..i] == jsonApps[..i] && (spares + [spare])[..i] == spares;
      spares := spares + [spare];
    }
    assert jsonApps[..|jsonApps|] == jsonApps;
    forall v
      ensures v in vhosts <==> exists i :: 0 <= i < |jsonApps| && IsFor(cfg, jsonApps[i], v)
      ensures v in vhosts ==> Entries(apps)[v].hosts == ReportedHosts(cfg, jsonApps, v)
    {
      StoredHosts(cfg, jsonApps, spares, v);
    }
  }

  lemma NoArrays()
    ensures AllValid(map[]) && AllArrays(map[]) == {}
  {
  }
}
