/** Merging the apps of all namespaces into the data that a config is rendered from. The order in
    which maps are walked is open, so what does not depend on it is worth knowing. */
module Rendering {
  import opened GoStrings
  import opened StableNames
  import opened Aggregation

  datatype Namespace = Namespace(routingTag: string, apps: map<string, App>)

  type Store = map<string, Namespace>

  /** A namespace and an app of it. */
  type Visit = (string, string)

  predicate InStore(store: Store, v: Visit) {
    v.0 in store && v.1 in store[v.0].apps
  }

  ghost function AllVisits(store: Store): set<Visit> {
    set ns, id | ns in store && id in store[ns].apps :: (ns, id)
  }

  /** The app as it takes part: with its namespace's routing tag. */
  function AppOf(store: Store, v: Visit): App
    requires InStore(store, v)
  {
    store[v.0].apps[v.1].(routingTagKey := store[v.0].routingTag)
  }

  // ---- Merging ----

  function MergedTags(a: Tags, b: Tags): Tags {
    Some((if a.Some? then a.value else map[]) + (if b.Some? then b.value else map[]))
  }

  function MergedGroup(a: HostGroup, b: HostGroup): HostGroup {
    HostGroup(a.hosts + b.hosts, MergedTags(a.tags, b.tags))
  }

  function MergedGroups(a: map<string, HostGroup>, b: map<string, HostGroup>): map<string, HostGroup> {
    map g | g in a.Keys + b.Keys :: if g !in b then a[g] else if g !in a then b[g] else MergedGroup(a[g], b[g])
  }

  function MergedApp(a: App, b: App): App {
    a.(hosts := a.hosts + b.hosts, tags := MergedTags(a.tags, b.tags), groups := MergedGroups(a.groups, b.groups))
  }

  function Visited(apps: map<string, App>, id: string, app: App): map<string, App> {
    apps[id := if id in apps then MergedApp(apps[id], app) else app]
  }

  /** The apps after a walk. */
  function RenderAll(store: Store, visits: seq<Visit>): map<string, App>
    requires forall i :: 0 <= i < |visits| ==> InStore(store, visits[i])
  {
    if visits == [] then map[]
    else
      var v := visits[|visits| - 1];
      Visited(RenderAll(store, visits[..|visits| - 1]), v.1, AppOf(store, v))
  }

  /** One namespace is finished before the next is begun. */
  ghost predicate ByNamespace(visits: seq<Visit>) {
    forall i, j, k :: 0 <= i < j < k < |visits| && visits[i].0 == visits[k].0 ==> visits[j].0 == visits[i].0
  }

  /** A walk through the whole store, namespaces and apps in any order. */
  ghost predicate Walk(store: Store, visits: seq<Visit>) {
    multiset(visits) == multiset(AllVisits(store)) && ByNamespace(visits)
  }

  lemma WalkStaysInStore(store: Store, visits: seq<Visit>)
    requires Walk(store, visits)
    ensures forall i :: 0 <= i < |visits| ==> InStore(store, visits[i])
  {
    forall i | 0 <= i < |visits| ensures InStore(store, visits[i]) {
      assert visits[i] in multiset(visits);
    }
  }

  /** The apps after a walk through the whole store. */
  ghost function RenderOf(store: Store, visits: seq<Visit>): map<string, App>
    requires Walk(store, visits)
  {
    WalkStaysInStore(store, visits);
    RenderAll(store, visits)
  }

  // ---- What a walk gathers ----

  /** What a visit adds to an app's hosts, or to those of one of its groups. */
  function Piece(store: Store, v: Visit, id: string, group: Option<string>): seq<Host> {
    if !InStore(store, v) || v.1 != id then []
    else
      var app := AppOf(store, v);
      if group.None? then app.hosts
      else if group.value in app.groups then app.groups[group.value].hosts else []
  }

  function Gathered(store: Store, visits: seq<Visit>, id: string, group: Option<string>): seq<Host> {
    if visits == [] then []
    else Gathered(store, visits[..|visits| - 1], id, group) + Piece(store, visits[|visits| - 1], id, group)
  }

  ghost predicate Seen(store: Store, visits: seq<Visit>, id: string, group: Option<string>) {
    exists v :: v in visits && InStore(store, v) && v.1 == id && (group.Some? ==> group.value in AppOf(store, v).groups)
  }

  function HostsOf(apps: map<string, App>, id: string): seq<Host> {
    if id in apps then apps[id].hosts else []
  }

  function GroupHostsOf(apps: map<string, App>, id: string, group: string): seq<Host> {
    if id in apps && group in apps[id].groups then apps[id].groups[group].hosts else []
  }

  predicate HasGroup(apps: map<string, App>, id: string, group: string) {
    id in apps && group in apps[id].groups
  }

  lemma VisitGathers(apps: map<string, App>, store: Store, v: Visit, id: string, group: string)
    requires InStore(store, v)
    ensures var apps' := Visited(apps, v.1, AppOf(store, v));
      && (id in apps' <==> id in apps || v.1 == id)
      && HostsOf(apps', id) == HostsOf(apps, id) + Piece(store, v, id, None)
      && (HasGroup(apps', id, group) <==> HasGroup(apps, id, group) || (v.1 == id && group in AppOf(store, v).groups))
      && GroupHostsOf(apps', id, group) == GroupHostsOf(apps, id, group) + Piece(store, v, id, Some(group))
  {
    hide MergedTags;
  }

  lemma {:induction false} RenderGathers(store: Store, visits: seq<Visit>, id: string, group: string)
    requires forall i :: 0 <= i < |visits| ==> InStore(store, visits[i])
    ensures var apps := RenderAll(store, visits);
      && (id in apps <==> Seen(store, visits, id, None))
      && HostsOf(apps, id) == Gathered(store, visits, id, None)
      && (HasGroup(apps, id, group) <==> Seen(store, visits, id, Some(group)))
      && GroupHostsOf(apps, id, group) == Gathered(store, visits, id, Some(group))
  {
    hide Seen, Visited, Piece;
    if visits == [] {
      NothingSeen(store, id);
    } else {
      hide HostsOf, GroupHostsOf, HasGroup;
      var before, v := visits[..|visits| - 1], visits[|visits| - 1];
      RenderGathers(store, before, id, group);
      VisitGathers(RenderAll(store, before), store, v, id, group);
      assert forall w :: w in visits <==> w in before || w == v;
      SeenStep(store, before, v, visits, id, None);
      SeenStep(store, before, v, visits, id, Some(group));
    }
  }

  /** The tags that a visit has for an app, or for one of its groups. */
  ghost function TagsOfVisit(store: Store, v: Visit, id: string, group: Option<string>): map<string, string> {
    if v.0 !in store || v.1 != id || id !in store[v.0].apps then map[]
    else
      var app := store[v.0].apps[id];
      var tags := if group.None? then app.tags
                  else if group.value in app.groups then app.groups[group.value].tags else None;
      if tags.Some? then tags.value else map[]
  }

  /** The last visit that has the tag decides on its value. */
  ghost predicate LastTag(store: Store, visits: seq<Visit>, id: string, group: Option<string>, tag: string,
      value: string) {
    exists i: nat :: i < |visits| && HasTag(store, visits[i], id, group, tag, value) &&
                     NoTagFrom(store, visits, i + 1, id, group, tag)
  }

  ghost predicate HasTag(store: Store, v: Visit, id: string, group: Option<string>, tag: string, value: string) {
    tag in TagsOfVisit(store, v, id, group) && TagsOfVisit(store, v, id, group)[tag] == value
  }

  ghost function RenderedTags(apps: map<string, App>, id: string, group: Option<string>): map<string, string> {
    var tags := if id !in apps then None
                else if group.None? then apps[id].tags
                else if group.value in apps[id].groups then apps[id].groups[group.value].tags else None;
    if tags.Some? then tags.value else map[]
  }

  /** A rendered app, and each of its groups, has the tags of all its namespaces; where they differ on
      one, the namespace visited last decides. */
  lemma {:induction false} LastTagWins(store: Store, visits: seq<Visit>, id: string, group: Option<string>, tag: string,
      value: string)
    requires forall i :: 0 <= i < |visits| ==> InStore(store, visits[i])
    ensures var tags := RenderedTags(RenderAll(store, visits), id, group);
      tag in tags && tags[tag] == value <==> LastTag(store, visits, id, group, tag, value)
  {
    hide RenderedTags, TagsOfVisit, Visited;
    if visits == [] {
      NoTags(id, group);
    } else {
      var n := |visits| - 1;
      var before, v := visits[..n], visits[n];
      LastTagWins(store, before, id, group, tag, value);
      VisitTags(RenderAll(store, before), store, v, id, group);
      LastTagStep(store, before, v, id, group, tag, value);
      assert before + [v] == visits;
    }
  }

  lemma NoTags(id: string, group: Option<string>)
    ensures RenderedTags(map[], id, group) == map[]
  {
  }

  lemma VisitTags(apps: map<string, App>, store: Store, v: Visit, id: string, group: Option<string>)
    requires InStore(store, v)
    ensures RenderedTags(Visited(apps, v.1, AppOf(store, v)), id, group)
         == RenderedTags(apps, id, group) + TagsOfVisit(store, v, id, group)
  {
    if v.1 == id && id in apps {
      var merged := MergedApp(apps[id], AppOf(store, v));
      assert Visited(apps, v.1, AppOf(store, v))[id] == merged;
    }
  }

  /** No visit from the given one on has the tag. */
  ghost predicate NoTagFrom(store: Store, visits: seq<Visit>, i: nat, id: string, group: Option<string>, tag: string) {
    forall j :: i <= j < |visits| ==> tag !in TagsOfVisit(store, visits[j], id, group)
  }

  lemma LastTagStep(store: Store, before: seq<Visit>, v: Visit, id: string, group: Option<string>, tag: string,
      value: string)
    ensures LastTag(store, before + [v], id, group, tag, value)
       <==> if tag in TagsOfVisit(store, v, id, group) then HasTag(store, v, id, group, tag, value)
            else LastTag(store, before, id, group, tag, value)
  {
    hide TagsOfVisit, HasTag, NoTagFrom;
    var visits, n := before + [v], |before|;
    assert visits[n] == v && forall j :: 0 <= j < n ==> visits[j] == before[j];
    NoTagAfter(store, visits, n + 1, id, group, tag);
    HasTagHas(store, v, id, group, tag, value);
    if LastTag(store, before, id, group, tag, value) && tag !in TagsOfVisit(store, v, id, group) {
      var i: nat :| i < n && HasTag(store, before[i], id, group, tag, value) &&
        NoTagFrom(store, before, i + 1, id, group, tag);
      NoTagStep(store, before, v, i + 1, id, group, tag);
      assert HasTag(store, visits[i], id, group, tag, value);
    }
    if HasTag(store, v, id, group, tag, value) {
      assert HasTag(store, visits[n], id, group, tag, value);
    }
    if LastTag(store, visits, id, group, tag, value) {
      var i: nat :| i < |visits| && HasTag(store, visits[i], id, group, tag, value) &&
        NoTagFrom(store, visits, i + 1, id, group, tag);
      NoTagStep(store, before, v, i + 1, id, group, tag);
      assert i < n ==> HasTag(store, before[i], id, group, tag, value);
    }
  }

  lemma HasTagHas(store: Store, v: Visit, id: string, group: Option<string>, tag: string, value: string)
    ensures HasTag(store, v, id, group, tag, value) ==> tag in TagsOfVisit(store, v, id, group)
  {
    hide TagsOfVisit;
  }

  lemma NoTagAfter(store: Store, visits: seq<Visit>, i: nat, id: string, group: Option<string>, tag: string)
    requires i >= |visits|
    ensures NoTagFrom(store, visits, i, id, group, tag)
  {
  }

  lemma NoTagStep(store: Store, before: seq<Visit>, v: Visit, i: nat, id: string, group: Option<string>, tag: string)
    ensures NoTagFrom(store, before + [v], i, id, group, tag) <==>
      NoTagFrom(store, before, i, id, group, tag) && (i <= |before| ==> tag !in TagsOfVisit(store, v, id, group))
  {
    hide TagsOfVisit;
    var visits, n := before + [v], |before|;
    assert visits[n] == v && forall j :: 0 <= j < n ==> before[j] == visits[j];
    if NoTagFrom(store, visits, i, id, group, tag) && i <= n {
      assert tag !in TagsOfVisit(store, visits[n], id, group);
    }
  }

  lemma NothingSeen(store: Store, id: string)
    ensures forall group :: !Seen(store, [], id, group)
  {
  }

  lemma SeenStep(store: Store, before: seq<Visit>, v: Visit, visits: seq<Visit>, id: string, group: Option<string>)
    requires forall w :: w in visits <==> w in before || w == v
    ensures Seen(store, visits, id, group) <==>
      (Seen(store, before, id, group) ||
      (InStore(store, v) && v.1 == id && (group.Some? ==> group.value in AppOf(store, v).groups)))
  {
    assert v in visits;
  }

  /** The hosts that all namespaces together have for an app, or for one of its groups. */
  ghost function Sum(store: Store, visits: set<Visit>, id: string, group: Option<string>): multiset<Host> {
    if visits == {} then multiset{}
    else
      var v :| v in visits;
      multiset(Piece(store, v, id, group)) + Sum(store, visits - {v}, id, group)
  }

  lemma {:induction false} SumWithout(store: Store, visits: set<Visit>, v: Visit, id: string, group: Option<string>)
    requires v in visits
    ensures Sum(store, visits, id, group) == multiset(Piece(store, v, id, group)) + Sum(store, visits - {v}, id, group)
    decreases |visits|
  {
    hide Piece;
    var w :| w in visits &&
      Sum(store, visits, id, group) == multiset(Piece(store, w, id, group)) + Sum(store, visits - {w}, id, group);
    if w != v {
      SumWithout(store, visits - {w}, v, id, group);
      SumWithout(store, visits - {v}, w, id, group);
      assert visits - {w} - {v} == visits - {v} - {w};
    }
  }

  lemma {:induction false} GatheredIsSum(store: Store, visits: seq<Visit>, vs: set<Visit>, id: string,
      group: Option<string>)
    requires multiset(visits) == multiset(vs)
    ensures multiset(Gathered(store, visits, id, group)) == Sum(store, vs, id, group)
    decreases |visits|
  {
    hide Piece;
    if visits == [] {
      assert forall v :: v in vs ==> v in multiset(vs);
      assert vs == {};
    } else {
      var n := |visits| - 1;
      var before, v := visits[..n], visits[n];
      assert visits == before + [v];
      assert v in multiset(visits);
      WithoutLast(before, v, vs);
      GatheredIsSum(store, before, vs - {v}, id, group);
      SumWithout(store, vs, v, id, group);
      var earlier, piece := Gathered(store, before, id, group), Piece(store, v, id, group);
      assert multiset(earlier + piece) == multiset(earlier) + multiset(piece);
    }
  }

  lemma WithoutLast(before: seq<Visit>, v: Visit, vs: set<Visit>)
    requires multiset(before + [v]) == multiset(vs)
    ensures v in vs && multiset(before) == multiset(vs - {v})
  {
    assert multiset(before + [v]) == multiset(before) + multiset{v};
    assert multiset(vs)[v] > 0;
    forall w ensures multiset(before)[w] == multiset(vs - {v})[w] {
      assert multiset(before + [v])[w] == multiset(vs)[w];
    }
  }

  // ---- Main results ----

  /** Hosts are conserved across namespaces, app by app and group by group, in every order. */
  lemma {:induction false} HostsAreConserved(store: Store, visits: seq<Visit>, id: string, group: string)
    requires Walk(store, visits)
    ensures var apps, all := RenderOf(store, visits), AllVisits(store);
      && (id in apps <==> exists ns :: ns in store && id in store[ns].apps)
      && (id in apps ==> multiset(apps[id].hosts) == Sum(store, all, id, None))
      && (id in apps ==>
        (group in apps[id].groups <==>
        exists ns :: ns in store && id in store[ns].apps && group in store[ns].apps[id].groups))
      && (id in apps && group in apps[id].groups ==>
        multiset(apps[id].groups[group].hosts) == Sum(store, all, id, Some(group)))
  {
    hide RenderAll, Gathered, Sum, Piece, Walk;
    WalkStaysInStore(store, visits);
    RenderGathers(store, visits, id, group);
    SeenInWalk(store, visits, id, None);
    SeenInWalk(store, visits, id, Some(group));
    assert multiset(visits) == multiset(AllVisits(store)) by {
      WalkIs(store, visits);
    }
    GatheredIsSum(store, visits, AllVisits(store), id, None);
    GatheredIsSum(store, visits, AllVisits(store), id, Some(group));
  }

  lemma WalkIs(store: Store, visits: seq<Visit>)
    ensures Walk(store, visits) <==> multiset(visits) == multiset(AllVisits(store)) && ByNamespace(visits)
  {
  }

  lemma SeenInWalk(store: Store, visits: seq<Visit>, id: string, group: Option<string>)
    requires Walk(store, visits)
    ensures Seen(store, visits, id, group) <==>
      exists ns :: ns in store && id in store[ns].apps && (group.Some? ==> group.value in store[ns].apps[id].groups)
  {
    assert forall v :: v in visits <==> v in multiset(visits);
    assert forall v :: v in AllVisits(store) <==> InStore(store, v);
    if ns :| ns in store && id in store[ns].apps && (group.Some? ==> group.value in store[ns].apps[id].groups) {
      var v := (ns, id);
      assert InStore(store, v) && v in multiset(visits);
    }
  }

  /** The same apps, the same hosts in each and in each of its groups. */
  ghost predicate SameContent(apps: map<string, App>, apps': map<string, App>) {
    && apps.Keys == apps'.Keys
    && (forall id :: id in apps && id in apps' ==>
      multiset(apps[id].hosts) == multiset(apps'[id].hosts) && apps[id].groups.Keys == apps'[id].groups.Keys)
    && (forall id, g :: id in apps && id in apps' && g in apps[id].groups && g in apps'[id].groups ==>
      multiset(apps[id].groups[g].hosts) == multiset(apps'[id].groups[g].hosts))
  }

  /** Order independence: any two walks over a store give the same content. */
  lemma {:induction false} OrderDoesNotMatter(store: Store, visits: seq<Visit>, visits': seq<Visit>)
    requires Walk(store, visits) && Walk(store, visits')
    ensures SameContent(RenderOf(store, visits), RenderOf(store, visits'))
  {
    hide RenderOf, Sum, Walk, InStore;
    var apps, apps' := RenderOf(store, visits), RenderOf(store, visits');
    forall id
      ensures id in apps <==> id in apps'
      ensures id in apps && id in apps' ==>
        multiset(apps[id].hosts) == multiset(apps'[id].hosts) && apps[id].groups.Keys == apps'[id].groups.Keys
    {
      HostsAreConserved(store, visits, id, "");
      HostsAreConserved(store, visits', id, "");
      forall g ensures id in apps && id in apps' ==> (g in apps[id].groups <==> g in apps'[id].groups) {
        HostsAreConserved(store, visits, id, g);
        HostsAreConserved(store, visits', id, g);
      }
    }
    assert apps.Keys == apps'.Keys;
    forall id, g | id in apps && id in apps' && g in apps[id].groups && g in apps'[id].groups
      ensures multiset(apps[id].groups[g].hosts) == multiset(apps'[id].groups[g].hosts)
    {
      HostsAreConserved(store, visits, id, g);
      HostsAreConserved(store, visits', id, g);
    }
  }

  // ---- Groups stay a partition ----

  function GroupHosts(groups: map<string, HostGroup>): map<string, seq<Host>> {
    map g | g in groups :: groups[g].hosts
  }

  /** The groups share out the app's hosts. */
  ghost predicate SharesOut(app: App) {
    Total(GroupHosts(app.groups)) == multiset(app.hosts)
  }

  /** No group is empty. */
  ghost predicate Filled(app: App) {
    forall g :: g in app.groups ==> app.groups[g].hosts != []
  }

  lemma MergedHosts(a: map<string, HostGroup>, b: map<string, HostGroup>, g: string)
    requires g in b
    ensures var before := GroupHosts(MergedGroups(a, b - {g}));
      && GroupHosts(MergedGroups(a, b)) == before[g := (if g in a then a[g].hosts else []) + b[g].hosts]
      && (g in before <==> g in a) && (g in a ==> before[g] == a[g].hosts)
  {
    hide MergedTags;
    assert g !in a ==> [] + b[g].hosts == b[g].hosts;
    assert forall k :: k in MergedGroups(a, b) && k != g ==> MergedGroups(a, b)[k] == MergedGroups(a, b - {g})[k];
  }

  lemma {:induction false} TotalOfMerged(a: map<string, HostGroup>, b: map<string, HostGroup>)
    ensures Total(GroupHosts(MergedGroups(a, b))) == Total(GroupHosts(a)) + Total(GroupHosts(b))
    decreases |b|
  {
    hide Total;
    if b == map[] {
      assert MergedGroups(a, b) == a && GroupHosts(b) == map[];
      TotalOfNone();
    } else {
      hide MergedGroups, GroupHosts;
      var g :| g in b;
      var rest, added := b - {g}, b[g].hosts;
      assert b.Keys == rest.Keys + {g} && |b.Keys| == |rest.Keys| + 1;
      TotalOfMerged(a, rest);
      var before, own := GroupHosts(MergedGroups(a, rest)), if g in a then a[g].hosts else [];
      MergedHosts(a, b, g);
      GroupTotalWithout(b, g);
      TotalUpdateAdds(before, g, own, added);
      AddLast(Total(before), Total(GroupHosts(a)), Total(GroupHosts(rest)), multiset(added));
    }
  }

  lemma AddLast(all: multiset<Host>, a: multiset<Host>, rest: multiset<Host>, added: multiset<Host>)
    requires all == a + rest
    ensures all + added == a + (added + rest)
  {
  }

  lemma TotalOfNone()
    ensures Total(map[]) == multiset{}
  {
  }

  lemma GroupTotalWithout(b: map<string, HostGroup>, g: string)
    requires g in b
    ensures Total(GroupHosts(b)) == multiset(b[g].hosts) + Total(GroupHosts(b - {g}))
  {
    assert GroupHosts(b) - {g} == GroupHosts(b - {g});
    TotalWithout(GroupHosts(b), g);
  }

  lemma TotalUpdateAdds(groups: map<string, seq<Host>>, g: string, own: seq<Host>, added: seq<Host>)
    requires own == if g in groups then groups[g] else []
    ensures Total(groups[g := own + added]) == Total(groups) + multiset(added)
  {
    TotalUpdate(groups, g, own + added);
    if g in groups {
      TotalWithout(groups, g);
    } else {
      assert groups - {g} == groups;
    }
    assert multiset(own + added) == multiset(own) + multiset(added);
  }

  lemma MergeStaysGrouped(a: App, b: App)
    ensures SharesOut(a) && SharesOut(b) ==> SharesOut(MergedApp(a, b))
    ensures Filled(a) && Filled(b) ==> Filled(MergedApp(a, b))
  {
    TotalOfMerged(a.groups, b.groups);
    assert multiset(a.hosts + b.hosts) == multiset(a.hosts) + multiset(b.hosts);
  }

  ghost predicate AllShareOut(apps: map<string, App>) {
    forall id :: id in apps ==> SharesOut(apps[id])
  }

  ghost predicate AllFilled(apps: map<string, App>) {
    forall id :: id in apps ==> Filled(apps[id])
  }

  lemma VisitStaysGrouped(apps: map<string, App>, id: string, app: App)
    ensures AllShareOut(apps) && SharesOut(app) ==> AllShareOut(Visited(apps, id, app))
    ensures AllFilled(apps) && Filled(app) ==> AllFilled(Visited(apps, id, app))
  {
    hide SharesOut, Filled, MergedApp;
    if id in apps {
      MergeStaysGrouped(apps[id], app);
    }
  }

  /** What holds of the groups of every app in the store holds of every app rendered. */
  lemma {:induction false} RenderStaysGrouped(store: Store, visits: seq<Visit>)
    requires forall i :: 0 <= i < |visits| ==> InStore(store, visits[i])
    ensures (forall ns :: ns in store ==> AllShareOut(store[ns].apps)) ==> AllShareOut(RenderAll(store, visits))
    ensures (forall ns :: ns in store ==> AllFilled(store[ns].apps)) ==> AllFilled(RenderAll(store, visits))
  {
    hide SharesOut, Filled, Visited;
    if visits != [] {
      var n := |visits| - 1;
      var v := visits[n];
      var app := store[v.0].apps[v.1];
      RenderStaysGrouped(store, visits[..n]);
      KeyDoesNotMatter(app, store[v.0].routingTag);
      VisitStaysGrouped(RenderAll(store, visits[..n]), v.1, AppOf(store, v));
    }
  }

  lemma KeyDoesNotMatter(app: App, key: string)
    ensures SharesOut(app.(routingTagKey := key)) <==> SharesOut(app)
    ensures Filled(app.(routingTagKey := key)) <==> Filled(app)
  {
  }

  // ---- Backend names ----

  /** A group that the config has a backend for. */
  predicate HasBackend(apps: map<string, App>, id: string, group: string) {
    id in apps && apps[id].vhost != "" && group in apps[id].groups
  }

  /** RenderingData.currentBackendNames */
  ghost function BackendNames(cfg: NameConfig, apps: map<string, App>): set<string> {
    set id, g | id in apps && g in apps[id].groups && HasBackend(apps, id, g) :: GroupBackend(cfg, apps[id], g)
  }

  /** The second loop of createRenderingData. */
  method RenderedNames(cfg: NameConfig, apps: map<string, App>) returns (names: set<string>)
    ensures names == BackendNames(cfg, apps)
  {
    hide GroupBackend;
    names := {};
    var ids := apps.Keys;
    while ids != {}
      invariant ids <= apps.Keys
      invariant names == set id, g | id in apps && g in apps[id].groups && id !in ids && HasBackend(apps, id, g) ::
        GroupBackend(cfg, apps[id], g)
      decreases |ids|
    {
      var id :| id in ids;
      var app := apps[id];
      if app.vhost != "" {
        var groups := app.groups.Keys;
        ghost var before := names;
        while groups != {}
          invariant groups <= app.groups.Keys
          invariant names == before + set g | g in app.groups && g !in groups :: GroupBackend(cfg, app, g)
          decreases |groups|
        {
          var g :| g in groups;
          names := names + {GroupBackend(cfg, app, g)};
          groups := groups - {g};
        }
      }
      ids := ids - {id};
    }
  }

  /** The backend names of some groups of an app, going by the vhost and routing tag of `named`. */
  ghost function NamesVia(cfg: NameConfig, named: App, groups: set<string>): set<string> {
    if named.vhost == "" then {} else set g | g in groups :: GroupBackend(cfg, named, g)
  }

  ghost function AppBackends(cfg: NameConfig, app: App): set<string> {
    NamesVia(cfg, app, app.groups.Keys)
  }

  /** The groups that an app has in any namespace. */
  ghost function GroupsOf(store: Store, id: string): set<string> {
    set ns, g | ns in store && id in store[ns].apps && g in store[ns].apps[id].groups :: g
  }

  /** Namespaces that share an app would name its backends alike. */
  ghost predicate Agree(cfg: NameConfig, store: Store) {
    forall v, w :: InStore(store, v) && InStore(store, w) && v.1 == w.1 ==>
      NamesVia(cfg, AppOf(store, v), GroupsOf(store, v.1)) == NamesVia(cfg, AppOf(store, w), GroupsOf(store, v.1))
  }

  /** What a caller can look up: namespaces sharing an app agree on its vhost and, where names
      carry the routing tag value, on having a routing tag at all. */
  ghost predicate TagsMatch(cfg: NameConfig, store: Store) {
    forall v, w :: InStore(store, v) && InStore(store, w) && v.1 == w.1 ==>
      NamedAlike(cfg, AppOf(store, v), AppOf(store, w))
  }

  predicate NamedAlike(cfg: NameConfig, a: App, b: App) {
    && a.vhost == b.vhost
    && (cfg.includeRoutingTagSuffix && a.vhost != "" ==> (a.routingTagKey == "" <==> b.routingTagKey == ""))
  }

  /** Every app has a group, and its vhost is its identifier, as every sync makes it. */
  ghost predicate SyncedShape(store: Store) {
    forall v :: InStore(store, v) ==> AppOf(store, v).vhost == v.1 && AppOf(store, v).groups != map[]
  }

  /** That is enough, and for synced apps it is exactly what agreeing means. */
  lemma AgreeIff(cfg: NameConfig, store: Store)
    ensures TagsMatch(cfg, store) ==> Agree(cfg, store)
    ensures SyncedShape(store) && cfg.backendNameSeparator != "" ==> (Agree(cfg, store) <==> TagsMatch(cfg, store))
  {
    hide GroupsOf, NamesVia, NamedAlike;
    forall v, w | InStore(store, v) && InStore(store, w) && v.1 == w.1
      ensures var a, b, groups := AppOf(store, v), AppOf(store, w), GroupsOf(store, v.1);
        && (NamedAlike(cfg, a, b) ==> NamesVia(cfg, a, groups) == NamesVia(cfg, b, groups))
        && (SyncedShape(store) && cfg.backendNameSeparator != "" ==>
          (NamesVia(cfg, a, groups) == NamesVia(cfg, b, groups) <==> NamedAlike(cfg, a, b)))
    {
      if SyncedShape(store) {
        SharedHasGroup(store, v);
      }
      NamesViaIff(cfg, AppOf(store, v), AppOf(store, w), GroupsOf(store, v.1));
    }
  }

  lemma SharedHasGroup(store: Store, v: Visit)
    requires SyncedShape(store) && InStore(store, v)
    ensures GroupsOf(store, v.1) != {}
  {
    var g :| g in store[v.0].apps[v.1].groups;
    assert g in GroupsOf(store, v.1);
  }

  lemma NamesViaIff(cfg: NameConfig, a: App, b: App, groups: set<string>)
    ensures NamedAlike(cfg, a, b) ==> NamesVia(cfg, a, groups) == NamesVia(cfg, b, groups)
    ensures a.vhost == b.vhost && cfg.backendNameSeparator != "" && groups != {} ==>
      (NamesVia(cfg, a, groups) == NamesVia(cfg, b, groups) <==> NamedAlike(cfg, a, b))
  {
    if NamedAlike(cfg, a, b) {
      assert a.vhost != "" ==> forall g :: GroupBackend(cfg, a, g) == GroupBackend(cfg, b, g);
    } else if a.vhost == b.vhost && cfg.backendNameSeparator != "" && groups != {} {
      var g :| g in groups;
      var bare, tagged := if a.routingTagKey == "" then a else b, if a.routingTagKey == "" then b else a;
      assert GroupBackend(cfg, bare, g) == a.vhost && a.vhost in NamesVia(cfg, bare, groups);
      forall k | k in groups ensures GroupBackend(cfg, tagged, k) != a.vhost {
        assert |GroupBackend(cfg, tagged, k)| > |a.vhost|;
      }
      assert a.vhost !in NamesVia(cfg, tagged, groups);
    }
  }

  ghost predicate NamedBy(app: App, named: App) {
    app.vhost == named.vhost && app.routingTagKey == named.routingTagKey
  }

  /** The vhost and the routing tag of an app are those of its first visit. */
  lemma {:induction false} FirstVisitNames(store: Store, visits: seq<Visit>, id: string) returns (v: Visit)
    requires forall i :: 0 <= i < |visits| ==> InStore(store, visits[i])
    requires id in RenderAll(store, visits)
    ensures InStore(store, v) && v.1 == id && NamedBy(RenderAll(store, visits)[id], AppOf(store, v))
    ensures visits[0].1 == id ==> v == visits[0]
  {
    hide MergedTags, MergedGroups;
    var n := |visits| - 1;
    if id in RenderAll(store, visits[..n]) {
      v := FirstVisitNames(store, visits[..n], id);
    } else {
      v := visits[n];
      if n > 0 {
        RenderGathers(store, visits[..n], id, "");
        assert visits[0] in visits[..n];
      }
    }
  }

  lemma {:induction false} ListOf(vs: set<Visit>) returns (q: seq<Visit>)
    ensures multiset(q) == multiset(vs)
    decreases |vs|
  {
    if vs == {} {
      q := [];
    } else {
      var v :| v in vs;
      q := ListOf(vs - {v});
      q := q + [v];
      assert vs == (vs - {v}) + {v};
    }
  }

  function OfNamespace(vs: set<Visit>, ns: string): set<Visit> {
    set v | v in vs && v.0 == ns
  }

  /** All of one namespace, then the others one by one. */
  lemma {:induction false} ListByNamespace(vs: set<Visit>) returns (q: seq<Visit>)
    ensures multiset(q) == multiset(vs) && ByNamespace(q)
    decreases |vs|
  {
    if vs == {} {
      q := [];
    } else {
      var v :| v in vs;
      var own := OfNamespace(vs, v.0);
      assert v in own;
      SmallerSet(vs, own);
      var first := ListOf(own);
      var rest := ListByNamespace(vs - own);
      q := first + rest;
      JoinNamespaces(vs, v.0, first, rest);
    }
  }

  lemma SmallerSet(vs: set<Visit>, own: set<Visit>)
    requires own <= vs && own != {}
    ensures |vs - own| < |vs|
  {
    assert vs == (vs - own) + own;
  }

  lemma JoinNamespaces(vs: set<Visit>, ns: string, first: seq<Visit>, rest: seq<Visit>)
    requires multiset(first) == multiset(OfNamespace(vs, ns))
    requires multiset(rest) == multiset(vs - OfNamespace(vs, ns)) && ByNamespace(rest)
    ensures multiset(first + rest) == multiset(vs) && ByNamespace(first + rest)
  {
    var own := OfNamespace(vs, ns);
    assert vs == own + (vs - own);
    forall i | 0 <= i < |first| ensures first[i].0 == ns {
      assert first[i] in multiset(first);
    }
    forall i | 0 <= i < |rest| ensures rest[i].0 != ns {
      assert rest[i] in multiset(rest);
    }
    var q := first + rest;
    forall i, j, k | 0 <= i < j < k < |q| && q[i].0 == q[k].0 ensures q[j].0 == q[i].0 {
      if i >= |first| {
        assert q[i] == rest[i - |first|] && q[j] == rest[j - |first|] && q[k] == rest[k - |first|];
      }
    }
  }

  /** Any visit can come first. */
  lemma WalkFrom(store: Store, v: Visit) returns (visits: seq<Visit>)
    requires InStore(store, v)
    ensures Walk(store, visits) && visits != [] && visits[0] == v
  {
    var all := AllVisits(store);
    var own := OfNamespace(all, v.0);
    assert v in own;
    var others := ListOf(own - {v});
    assert own == (own - {v}) + {v};
    assert multiset([v] + others) == multiset{v} + multiset(others);
    var rest := ListByNamespace(all - own);
    JoinNamespaces(all, v.0, [v] + others, rest);
    visits := [v] + others + rest;
  }

  /** An app's rendered backend names: by its first visit, for all its groups. */
  lemma BackendsOfRendered(cfg: NameConfig, store: Store, visits: seq<Visit>, id: string) returns (v: Visit)
    requires Walk(store, visits) && id in RenderOf(store, visits)
    ensures InStore(store, v) && v.1 == id && (visits[0].1 == id ==> v == visits[0])
    ensures AppBackends(cfg, RenderOf(store, visits)[id]) == NamesVia(cfg, AppOf(store, v), GroupsOf(store, id))
  {
    hide RenderAll, Walk, StableBackendName;
    WalkStaysInStore(store, visits);
    v := FirstVisitNames(store, visits, id);
    var app := RenderOf(store, visits)[id];
    forall g ensures g in app.groups <==> g in GroupsOf(store, id) {
      HostsAreConserved(store, visits, id, g);
    }
    assert app.groups.Keys == GroupsOf(store, id);
    assert forall g :: GroupBackend(cfg, app, g) == GroupBackend(cfg, AppOf(store, v), g);
  }

  ghost predicate SameBackends(cfg: NameConfig, apps: map<string, App>, apps': map<string, App>) {
    forall id :: id in apps && id in apps' ==> AppBackends(cfg, apps[id]) == AppBackends(cfg, apps'[id])
  }

  /** Every app gets the same backend names in all walks. */
  ghost predicate NamesAreStable(cfg: NameConfig, store: Store) {
    forall visits, visits' :: Walk(store, visits) && Walk(store, visits') ==>
      SameBackends(cfg, RenderOf(store, visits), RenderOf(store, visits'))
  }

  /** So it is exactly when namespaces that share an app agree. */
  lemma NamesAreStableIff(cfg: NameConfig, store: Store)
    ensures NamesAreStable(cfg, store) <==> Agree(cfg, store)
  {
    hide RenderAll, RenderOf, Walk, AppBackends, NamesVia, GroupsOf, InStore;
    if Agree(cfg, store) {
      forall visits, visits' | Walk(store, visits) && Walk(store, visits')
        ensures SameBackends(cfg, RenderOf(store, visits), RenderOf(store, visits'))
      {
        AgreeGivesSameBackends(cfg, store, visits, visits');
      }
    }
    if NamesAreStable(cfg, store) {
      forall v, w | InStore(store, v) && InStore(store, w) && v.1 == w.1
        ensures NamesVia(cfg, AppOf(store, v), GroupsOf(store, v.1))
          == NamesVia(cfg, AppOf(store, w), GroupsOf(store, v.1))
      {
        var visits := WalkFrom(store, v);
        var visits' := WalkFrom(store, w);
        InWalkIsRendered(store, visits, v);
        InWalkIsRendered(store, visits', w);
        var first := BackendsOfRendered(cfg, store, visits, v.1);
        var first' := BackendsOfRendered(cfg, store, visits', w.1);
        assert SameBackends(cfg, RenderOf(store, visits), RenderOf(store, visits'));
      }
    }
  }

  lemma AgreeGivesSameBackends(cfg: NameConfig, store: Store, visits: seq<Visit>, visits': seq<Visit>)
    requires Agree(cfg, store) && Walk(store, visits) && Walk(store, visits')
    ensures SameBackends(cfg, RenderOf(store, visits), RenderOf(store, visits'))
  {
    hide RenderAll, RenderOf, Walk, AppBackends, NamesVia, GroupsOf, InStore;
    var apps, apps' := RenderOf(store, visits), RenderOf(store, visits');
    forall id | id in apps && id in apps' ensures AppBackends(cfg, apps[id]) == AppBackends(cfg, apps'[id]) {
      var v := BackendsOfRendered(cfg, store, visits, id);
      var w := BackendsOfRendered(cfg, store, visits', id);
    }
  }

  lemma InWalkIsRendered(store: Store, visits: seq<Visit>, v: Visit)
    requires Walk(store, visits) && InStore(store, v)
    ensures v.1 in RenderOf(store, visits)
  {
    hide RenderAll, Walk;
    WalkStaysInStore(store, visits);
    HostsAreConserved(store, visits, v.1, "");
  }

  /** Then currentBackendNames, too, is the same for every walk. */
  lemma {:induction false} BackendNamesAreStable(cfg: NameConfig, store: Store, visits: seq<Visit>, visits': seq<Visit>)
    requires Agree(cfg, store) && Walk(store, visits) && Walk(store, visits')
    ensures BackendNames(cfg, RenderOf(store, visits)) == BackendNames(cfg, RenderOf(store, visits'))
  {
    hide RenderOf, Walk, Agree, AppBackends, BackendNames;
    AgreeGivesSameBackends(cfg, store, visits, visits');
    OrderDoesNotMatter(store, visits, visits');
    BackendNamesByApp(cfg, RenderOf(store, visits));
    BackendNamesByApp(cfg, RenderOf(store, visits'));
  }

  /** The set that reload() compares with the last known one is the same for all walks. */
  ghost predicate NameSetIsStable(cfg: NameConfig, store: Store) {
    forall visits, visits' :: Walk(store, visits) && Walk(store, visits') ==>
      BackendNames(cfg, RenderOf(store, visits)) == BackendNames(cfg, RenderOf(store, visits'))
  }

  /** One character that separates names, and no app whose name contains it. */
  ghost predicate NamesSeparate(cfg: NameConfig, store: Store) {
    |cfg.backendNameSeparator| == 1 && forall v :: InStore(store, v) ==> cfg.backendNameSeparator[0] !in v.1
  }

  /** For synced apps that is so exactly when their namespaces agree on having a routing tag. */
  lemma {:induction false} NameSetIsStableIff(cfg: NameConfig, store: Store)
    requires SyncedShape(store) && NamesSeparate(cfg, store)
    ensures NameSetIsStable(cfg, store) <==> TagsMatch(cfg, store)
  {
    hide RenderAll, RenderOf, Walk, BackendNames, InStore, AppOf, Agree;
    if TagsMatch(cfg, store) {
      AgreeIff(cfg, store);
      forall visits, visits' | Walk(store, visits) && Walk(store, visits')
        ensures BackendNames(cfg, RenderOf(store, visits)) == BackendNames(cfg, RenderOf(store, visits'))
      {
        BackendNamesAreStable(cfg, store, visits, visits');
      }
    }
    if NameSetIsStable(cfg, store) {
      forall v, w | InStore(store, v) && InStore(store, w) && v.1 == w.1
        ensures NamedAlike(cfg, AppOf(store, v), AppOf(store, w))
      {
        if cfg.includeRoutingTagSuffix && v.1 != "" {
          var visits := WalkFrom(store, v);
          var visits' := WalkFrom(store, w);
          BareNameIff(cfg, store, visits, v);
          BareNameIff(cfg, store, visits', w);
        }
      }
    }
  }

  /** The app visited first has its bare vhost among all backend names exactly when its namespace
      has no routing tag. */
  lemma BareNameIff(cfg: NameConfig, store: Store, visits: seq<Visit>, v: Visit)
    requires SyncedShape(store) && NamesSeparate(cfg, store) && cfg.includeRoutingTagSuffix
    requires InStore(store, v) && v.1 != "" && Walk(store, visits) && visits != [] && visits[0] == v
    ensures v.1 in BackendNames(cfg, RenderOf(store, visits)) <==> AppOf(store, v).routingTagKey == ""
  {
    hide RenderAll, RenderOf, Walk, BackendNames, AppBackends, GroupsOf, InStore, AppOf;
    var apps := RenderOf(store, visits);
    BackendNamesByApp(cfg, apps);
    InWalkIsRendered(store, visits, v);
    if AppOf(store, v).routingTagKey == "" {
      var first := BackendsOfRendered(cfg, store, visits, v.1);
      SharedHasGroup(store, v);
      var g :| g in GroupsOf(store, v.1);
      assert GroupBackend(cfg, AppOf(store, v), g) == v.1;
      assert v.1 in AppBackends(cfg, apps[v.1]);
    }
    if id :| id in apps && v.1 in AppBackends(cfg, apps[id]) {
      var w := BackendsOfRendered(cfg, store, visits, id);
      var g :| g in GroupsOf(store, id) && GroupBackend(cfg, AppOf(store, w), g) == v.1;
      BareName(cfg, AppOf(store, w), g, v.1);
    }
  }

  lemma BareName(cfg: NameConfig, app: App, g: string, name: string)
    requires |cfg.backendNameSeparator| == 1 && cfg.backendNameSeparator[0] !in name
    requires cfg.includeRoutingTagSuffix && GroupBackend(cfg, app, g) == name
    ensures app.routingTagKey == "" && app.vhost == name
  {
    var suffixed := app.vhost + cfg.backendNameSeparator + g;
    assert suffixed[|app.vhost|] == cfg.backendNameSeparator[0];
  }

  lemma BackendNamesByApp(cfg: NameConfig, apps: map<string, App>)
    ensures forall b :: b in BackendNames(cfg, apps) <==> exists id :: id in apps && b in AppBackends(cfg, apps[id])
  {
    hide GroupBackend;
    forall b | b in BackendNames(cfg, apps) ensures exists id :: id in apps && b in AppBackends(cfg, apps[id]) {
      var id, g :| id in apps && g in apps[id].groups && HasBackend(apps, id, g) && GroupBackend(cfg, apps[id], g) == b;
      assert b in AppBackends(cfg, apps[id]);
    }
    forall b, id | id in apps && b in AppBackends(cfg, apps[id]) ensures b in BackendNames(cfg, apps) {
      var g :| g in apps[id].groups && GroupBackend(cfg, apps[id], g) == b;
      assert HasBackend(apps, id, g);
    }
  }

  /** Without agreement it can depend on the walk: with an app in two namespaces, only one of which
      has a routing tag, the namespace seen first decides whether names carry the group. */
  lemma BackendNamesCanDiffer(cfg: NameConfig, id: string, app: App, g: string, tag: string)
    requires cfg.includeRoutingTagSuffix && tag != "" && app.vhost != "" && g in app.groups
    ensures var store: Store := map["a" := Namespace(tag, map[id := app]), "b" := Namespace("", map[id := app])];
      var v, w := ("a", id), ("b", id);
      && Walk(store, [v, w]) && Walk(store, [w, v])
      && InStore(store, v) && InStore(store, w)
      && RenderAll(store, [v, w])[id].routingTagKey == tag && RenderAll(store, [w, v])[id].routingTagKey == ""
      && app.vhost + cfg.backendNameSeparator + g in BackendNames(cfg, RenderAll(store, [v, w]))
      && BackendNames(cfg, RenderAll(store, [w, v])) == {app.vhost}
  {
    var store: Store := map["a" := Namespace(tag, map[id := app]), "b" := Namespace("", map[id := app])];
    var v, w := ("a", id), ("b", id);
    assert AllVisits(store) == {v, w};
    assert multiset(AllVisits(store)) == multiset([v, w]) == multiset([w, v]);
    RenderTwo(store, v, w);
    RenderTwo(store, w, v);
    var vw, wv := RenderAll(store, [v, w]), RenderAll(store, [w, v]);
    assert HasBackend(vw, id, g) && GroupBackend(cfg, vw[id], g) == app.vhost + cfg.backendNameSeparator + g;
    assert HasBackend(wv, id, g) && GroupBackend(cfg, wv[id], g) == app.vhost;
  }

  lemma RenderTwo(store: Store, v: Visit, w: Visit)
    requires InStore(store, v) && InStore(store, w) && v.1 == w.1
    ensures RenderAll(store, [v, w]) == map[v.1 := MergedApp(AppOf(store, v), AppOf(store, w))]
  {
    hide MergedApp, AppOf;
    assert [v, w][..1] == [v] && [v][..0] == [];
    assert RenderAll(store, []) == map[];
    assert RenderAll(store, [v]) == map[v.1 := AppOf(store, v)];
  }
}
