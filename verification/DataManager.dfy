/** The store of namespaces on the heap: slices, tag maps and group maps are shared references, and
    rendering works on clones of them. */
module DataManager {
  import opened GoStrings
  import opened GoSlices
  import opened StableNames
  import opened Rendering

  /** A Go map: assignments through one reference are seen through all. */
  class GoMap<V> {
    var entries: map<string, V>

    constructor (entries: map<string, V>)
      ensures this.entries == entries
    {
      this.entries := entries;
    }
  }

  // ---- Groups ----

  datatype HeapGroup = HeapGroup(hosts: Slice<Host>, tags: GoMap?<string>) {
    predicate Valid() {
      hosts.Valid()
    }

    ghost function Objects(): set<object> {
      {hosts.data} + if tags == null then {} else {tags}
    }

    ghost function Contents(): HostGroup
      requires Valid()
      reads Objects()
    {
      HostGroup(hosts.Contents(), TagsOf(tags))
    }
  }

  ghost function TagsOf(tags: GoMap?<string>): Tags
    reads tags
  {
    if tags == null then None else Some(tags.entries)
  }

  /** Every group works on objects of its own. */
  ghost predicate SeparateGroups(gs: map<string, HeapGroup>) {
    && (forall g :: g in gs ==> gs[g].Valid())
    && (forall g, k :: g in gs && k in gs && g != k ==> gs[g].Objects() !! gs[k].Objects())
  }

  ghost predicate ValidGroups(gs: map<string, HeapGroup>) {
    forall g :: g in gs ==> gs[g].Valid()
  }

  ghost function GroupsObjects(gs: map<string, HeapGroup>): set<object> {
    set g, o | g in gs && o in gs[g].Objects() :: o
  }

  ghost function GroupsContents(gs: map<string, HeapGroup>): map<string, HostGroup>
    requires ValidGroups(gs)
    reads GroupsObjects(gs)
  {
    map g | g in gs :: gs[g].Contents()
  }

  lemma GroupIn(gs: map<string, HeapGroup>, g: string)
    requires SeparateGroups(gs) && g in gs
    ensures gs[g].Valid() && gs[g].Objects() <= GroupsObjects(gs)
    ensures gs[g].Objects() !! GroupsObjects(gs - {g})
    ensures GroupsContents(gs)[g] == gs[g].Contents()
  {
    hide HeapGroup.Objects, HeapGroup.Contents;
  }

  lemma GroupsRest(gs: map<string, HeapGroup>, g: string)
    requires SeparateGroups(gs)
    ensures ValidGroups(gs) && ValidGroups(gs - {g}) && SeparateGroups(gs - {g})
    ensures GroupsObjects(gs - {g}) <= GroupsObjects(gs)
    ensures GroupsContents(gs - {g}) == GroupsContents(gs) - {g}
  {
    hide HeapGroup.Objects, HeapGroup.Contents;
  }

  lemma GroupUpdate(rest: map<string, HeapGroup>, g: string, group: HeapGroup)
    requires SeparateGroups(rest) && g !in rest && group.Valid() && group.Objects() !! GroupsObjects(rest)
    ensures ValidGroups(rest) && ValidGroups(rest[g := group]) && SeparateGroups(rest[g := group])
    ensures GroupsObjects(rest[g := group]) <= GroupsObjects(rest) + group.Objects()
    ensures GroupsContents(rest[g := group]) == GroupsContents(rest)[g := group.Contents()]
  {
    hide HeapGroup.Objects, HeapGroup.Contents;
    assert forall k :: k in rest ==> rest[k].Objects() <= GroupsObjects(rest);
  }

  /** Tag maps: written in place, key by key. */
  method MergeTags(existing: GoMap?<string>, added: GoMap?<string>) returns (tags: GoMap<string>)
    requires existing == null || existing != added
    modifies existing
    ensures if existing == null then fresh(tags) else tags == existing
    ensures Some(tags.entries) == MergedTags(old(TagsOf(existing)), old(TagsOf(added)))
  {
    ghost var before := if existing == null then map[] else existing.entries;
    if existing == null {
      tags := new GoMap(map[]);
    } else {
      tags := existing;
    }
    if added != null {
      var source := added.entries;
      var todo := source.Keys;
      NothingAdded(before, source);
      while todo != {}
        invariant todo <= source.Keys && added.entries == source
        invariant tags.entries == before + (source - todo)
        decreases |todo|
      {
        var k :| k in todo;
        OneAdded(before, source, todo, k);
        tags.entries := tags.entries[k := added.entries[k]];
        todo := todo - {k};
      }
      assert source - todo == source;
    } else {
      assert before + map[] == before;
    }
  }

  lemma NothingAdded(before: map<string, string>, source: map<string, string>)
    ensures before + (source - source.Keys) == before
  {
  }

  lemma OneAdded(before: map<string, string>, source: map<string, string>, todo: set<string>, k: string)
    requires k in todo && k in source
    ensures (before + (source - todo))[k := source[k]] == before + (source - (todo - {k}))
  {
  }

  method MergeGroup(existing: HeapGroup, added: HeapGroup) returns (group: HeapGroup)
    requires existing.Valid() && added.Valid() && existing.Objects() !! added.Objects()
    modifies existing.Objects()
    ensures group.Valid() && forall o :: o in group.Objects() ==> o in existing.Objects() || fresh(o)
    ensures group.Contents() == MergedGroup(old(existing.Contents()), old(added.Contents()))
  {
    var hosts := Append(existing.hosts, added.hosts.Contents());
    var tags := MergeTags(existing.tags, added.tags);
    group := HeapGroup(hosts, tags);
  }

  /** One group of the app to merge: joined to the group of its name, or moved over. */
  method PutGroup(gs: map<string, HeapGroup>, g: string, added: HeapGroup) returns (gs': map<string, HeapGroup>)
    requires SeparateGroups(gs) && added.Valid() && added.Objects() !! GroupsObjects(gs)
    modifies if g in gs then gs[g].Objects() else {}
    ensures ValidGroups(gs) && ValidGroups(gs') && SeparateGroups(gs')
    ensures g in gs' && gs' == gs[g := gs'[g]]
    ensures forall o :: o in GroupsObjects(gs') ==> o in GroupsObjects(gs) || o in added.Objects() || fresh(o)
    ensures GroupsContents(gs') == old(GroupsContents(gs))[g :=
      if g in gs then MergedGroup(old(gs[g].Contents()), old(added.Contents())) else old(added.Contents())]
  {
    hide HeapGroup.Contents, SeparateGroups, ValidGroups;
    GroupsRest(gs, g);
    ghost var rest := gs - {g};
    ghost var contents := GroupsContents(rest);
    var group := added;
    if g in gs {
      GroupIn(gs, g);
      group := MergeGroup(gs[g], added);
    }
    assert GroupsContents(rest) == contents;
    GroupUpdate(rest, g, group);
    gs' := gs[g := group];
    assert gs' == rest[g := group];
  }

  ghost function GroupMapObjects(m: GoMap?<HeapGroup>): set<object>
    reads m
  {
    if m == null then {} else {m} + GroupsObjects(m.entries)
  }

  ghost predicate ValidGroupMap(m: GoMap?<HeapGroup>)
    reads m
  {
    m != null ==> ValidGroups(m.entries)
  }

  ghost predicate SeparateGroupMap(m: GoMap?<HeapGroup>)
    reads m
  {
    ValidGroupMap(m) && (m != null ==> SeparateGroups(m.entries) && m !in GroupsObjects(m.entries))
  }

  ghost function GroupMapContents(m: GoMap?<HeapGroup>): map<string, HostGroup>
    requires ValidGroupMap(m)
    reads m, GroupMapObjects(m)
  {
    if m == null then map[] else GroupsContents(m.entries)
  }

  lemma OneMoreGroup(existing: map<string, HostGroup>, added: map<string, HostGroup>, todo: set<string>, g: string)
    requires g in todo && g in added
    ensures var before := MergedGroups(existing, added - todo);
      && MergedGroups(existing, added - (todo - {g}))
        == before[g := if g in before then MergedGroup(before[g], added[g]) else added[g]]
  {
    hide MergedGroup;
  }

  // ---- The groups of an app ----

  /** The groups of an app to merge, in any order. */
  method MergeGroupEntries(existing: map<string, HeapGroup>,
      added: map<string, HeapGroup>) returns (gs: map<string, HeapGroup>)
    requires SeparateGroups(existing) && SeparateGroups(added) && ValidGroups(existing) && ValidGroups(added)
    requires GroupsObjects(existing) !! GroupsObjects(added)
    modifies GroupsObjects(existing)
    ensures SeparateGroups(gs) && ValidGroups(gs)
    ensures forall o :: o in GroupsObjects(gs) ==> o in GroupsObjects(existing) || o in GroupsObjects(added) || fresh(o)
    ensures GroupsContents(gs) == MergedGroups(old(GroupsContents(existing)), old(GroupsContents(added)))
  {
    hide HeapGroup.Objects, HeapGroup.Contents, SeparateGroups, ValidGroups, GroupsObjects, GroupsContents;
    hide MergedGroups, MergedGroup;
    ghost var contents, joining := GroupsContents(existing), GroupsContents(added);
    ghost var ours, theirs := GroupsObjects(existing), GroupsObjects(added);
    gs := existing;
    var rest := added;
    MergeNothing(contents, joining);
    GroupsKeys(added);
    while rest != map[]
      invariant SeparateGroups(gs) && SeparateGroups(rest) && ValidGroups(gs) && ValidGroups(rest)
      invariant GroupsObjects(rest) <= theirs && GroupsObjects(rest) !! GroupsObjects(gs)
      invariant forall g :: g in rest && g in gs ==> g in existing && gs[g] == existing[g]
      invariant forall o :: o in GroupsObjects(gs) ==> o in ours || o in theirs || fresh(o)
      invariant GroupsContents(rest).Keys == rest.Keys <= joining.Keys && forall g :: g in rest ==>
        GroupsContents(rest)[g] == joining[g]
      invariant GroupsContents(gs) == MergedGroups(contents, joining - rest.Keys)
      decreases |rest|
    {
      var g :| g in rest;
      ghost var todo := rest.Keys;
      GroupIn(rest, g);
      GroupsRest(rest, g);
      OneMoreGroup(contents, joining, todo, g);
      GroupsKeys(gs);
      if g in gs {
        GroupIn(existing, g);
        GroupIn(gs, g);
      }
      ghost var others, own, before := GroupsObjects(rest - {g}), rest[g].Objects(), GroupsObjects(gs);
      ghost var remaining := GroupsContents(rest - {g});
      assert allocated(others) && others !! own && others !! before && others !! ours;
      label L:
      gs := PutGroup(gs, g, rest[g]);
      rest := rest - {g};
      assert forall o :: o in GroupsObjects(gs) ==> o in before || o in own || fresh@L(o);
      assert GroupsContents(rest) == remaining;
      assert rest.Keys == todo - {g};
    }
  }

  lemma GroupsKeys(gs: map<string, HeapGroup>)
    requires ValidGroups(gs)
    ensures GroupsContents(gs).Keys == gs.Keys
  {
  }

  lemma NoGroups()
    ensures SeparateGroups(map[]) && ValidGroups(map[]) && GroupsObjects(map[]) == {} && GroupsContents(map[]) == map[]
  {
  }

  lemma MergeNothing(existing: map<string, HostGroup>, added: map<string, HostGroup>)
    ensures MergedGroups(existing, added - added.Keys) == existing
    ensures added - {} == added
  {
  }

  // ---- Apps ----

  datatype HeapApp = HeapApp(id: string, vhost: string, hosts: Slice<Host>, tags: GoMap?<string>,
      groups: GoMap?<HeapGroup>, routingTagKey: string) {
    ghost predicate Valid()
      reads groups
    {
      hosts.Valid() && ValidGroupMap(groups)
    }

    /** The app works on objects of its own, and so does each of its groups. */
    ghost predicate Own()
      reads groups
    {
      && Valid() && SeparateGroupMap(groups)
      && {hosts.data} !! GroupMapObjects(groups)
      && (tags != null ==> {tags} !! GroupMapObjects(groups))
    }

    ghost function Objects(): set<object>
      reads groups
    {
      {hosts.data} + (if tags == null then {} else {tags}) + GroupMapObjects(groups)
    }

    ghost function Contents(): App
      requires Valid()
      reads groups, Objects()
    {
      App(id, vhost, hosts.Contents(), TagsOf(tags), GroupMapContents(groups), routingTagKey)
    }
  }

  method MergeGroupMaps(existing: GoMap?<HeapGroup>, added: GoMap?<HeapGroup>) returns (groups: GoMap<HeapGroup>)
    requires SeparateGroupMap(existing) && SeparateGroupMap(added)
    requires GroupMapObjects(existing) !! GroupMapObjects(added)
    modifies GroupMapObjects(existing)
    ensures SeparateGroupMap(groups) && ValidGroupMap(groups) && ValidGroupMap(existing) && ValidGroupMap(added)
    ensures forall o :: o in GroupMapObjects(groups) ==>
      o in old(GroupMapObjects(existing)) || o in old(GroupMapObjects(added)) || fresh(o)
    ensures GroupMapContents(groups) == MergedGroups(old(GroupMapContents(existing)), old(GroupMapContents(added)))
  {
    hide HeapGroup.Objects, HeapGroup.Contents, SeparateGroups, ValidGroups, GroupsObjects, GroupsContents;
    hide MergedGroups, MergedGroup;
    NoGroups();
    var joining: map<string, HeapGroup> := if added == null then map[] else added.entries;
    ghost var theirs, contents := GroupsObjects(joining), GroupsContents(joining);
    assert allocated(theirs);
    if existing == null {
      groups := new GoMap(map[]);
    } else {
      groups := existing;
    }
    var current := groups.entries;
    assert groups !in GroupsObjects(current) && groups !in theirs && GroupsContents(joining) == contents;
    label L:
    var merged := MergeGroupEntries(current, joining);
    assert forall o :: o in GroupsObjects(merged) ==> o in GroupsObjects(current) || o in theirs || fresh@L(o);
    assert groups !in GroupsObjects(merged);
    ghost var all := GroupsContents(merged);
    groups.entries := merged;
    assert GroupsContents(merged) == all;
  }

  /** The app was seen before: hosts, tags and groups are joined. */
  method MergeApp(existing: HeapApp, added: HeapApp) returns (app: HeapApp)
    requires existing.Valid() && added.Valid() && existing.Own() && added.Own() && existing.Objects() !! added.Objects()
    modifies existing.Objects()
    ensures app.Valid() && app.Own()
    ensures forall o :: o in app.Objects() ==> o in old(existing.Objects()) || o in old(added.Objects()) || fresh(o)
    ensures app.Contents() == MergedApp(old(existing.Contents()), old(added.Contents()))
  {
    hide SeparateGroupMap, GroupMapObjects, GroupMapContents, MergedGroups, MergedTags;
    ghost var ours, theirs := GroupMapObjects(existing.groups), GroupMapObjects(added.groups);
    ghost var oldTags, moreTags := TagsOf(existing.tags), TagsOf(added.tags);
    ghost var oldGroups, moreGroups := GroupMapContents(existing.groups), GroupMapContents(added.groups);
    assert allocated(ours) && allocated(theirs);
    var hosts := Append(existing.hosts, added.hosts.Contents());
    ghost var allHosts := hosts.Contents();
    assert TagsOf(existing.tags) == oldTags && TagsOf(added.tags) == moreTags;
    var tags := MergeTags(existing.tags, added.tags);
    ghost var allTags := TagsOf(tags);
    assert hosts.Contents() == allHosts;
    assert SeparateGroupMap(existing.groups) && GroupMapObjects(existing.groups) == ours &&
      GroupMapContents(existing.groups) == oldGroups;
    assert SeparateGroupMap(added.groups) && GroupMapObjects(added.groups) == theirs &&
      GroupMapContents(added.groups) == moreGroups;
    assert hosts.data !in ours && hosts.data !in theirs && tags !in ours && tags !in theirs;
    label L:
    var groups := MergeGroupMaps(existing.groups, added.groups);
    assert forall o :: o in GroupMapObjects(groups) ==> o in ours || o in theirs || fresh@L(o);
    assert hosts.Contents() == allHosts && TagsOf(tags) == allTags;
    app := existing.(hosts := hosts, tags := tags, groups := groups);
  }

  // ---- Collections of apps ----

  ghost function GroupMaps<K(!new)>(apps: map<K, HeapApp>): set<object> {
    set k | k in apps && apps[k].groups != null :: apps[k].groups
  }

  ghost predicate ValidApps<K(!new)>(apps: map<K, HeapApp>)
    reads GroupMaps(apps)
  {
    forall k :: k in apps ==> apps[k].Valid()
  }

  /** No app works on another's objects. */
  ghost predicate SeparateApps<K(!new)>(apps: map<K, HeapApp>)
    reads GroupMaps(apps)
  {
    && ValidApps(apps)
    && (forall k :: k in apps ==> apps[k].Own())
    && forall k, l :: k in apps && l in apps && k != l ==> apps[k].Objects() !! apps[l].Objects()
  }

  ghost function AppsObjects<K(!new)>(apps: map<K, HeapApp>): set<object>
    reads GroupMaps(apps)
  {
    set k, o | k in apps && o in apps[k].Objects() :: o
  }

  ghost function AppsContents<K(!new)>(apps: map<K, HeapApp>): map<K, App>
    requires ValidApps(apps)
    reads GroupMaps(apps), AppsObjects(apps)
  {
    map k | k in apps :: apps[k].Contents()
  }

  lemma AppIn<K(!new)>(apps: map<K, HeapApp>, k: K)
    requires SeparateApps(apps) && k in apps
    ensures apps[k].Valid() && apps[k].Own() && apps[k].Objects() <= AppsObjects(apps)
    ensures apps[k].Objects() !! AppsObjects(apps - {k})
    ensures AppsContents(apps)[k] == apps[k].Contents()
  {
    hide HeapApp.Objects, HeapApp.Contents, HeapApp.Own, HeapApp.Valid;
  }

  lemma AppsRest<K(!new)>(apps: map<K, HeapApp>, k: K)
    requires SeparateApps(apps)
    ensures ValidApps(apps) && ValidApps(apps - {k}) && SeparateApps(apps - {k})
    ensures AppsObjects(apps - {k}) <= AppsObjects(apps)
    ensures GroupMaps(apps - {k}) <= AppsObjects(apps - {k})
    ensures AppsContents(apps).Keys == apps.Keys && AppsContents(apps - {k}) == AppsContents(apps) - {k}
  {
    hide HeapApp.Objects, HeapApp.Contents, HeapApp.Own, HeapApp.Valid;
    GroupMapsIn(apps - {k});
  }

  lemma GroupMapsIn<K(!new)>(apps: map<K, HeapApp>)
    ensures GroupMaps(apps) <= AppsObjects(apps)
  {
    hide HeapApp.Objects;
    forall k | k in apps && apps[k].groups != null ensures apps[k].groups in apps[k].Objects() {
      GroupMapIn(apps[k]);
    }
  }

  lemma GroupMapIn(app: HeapApp)
    requires app.groups != null
    ensures app.groups in app.Objects()
  {
  }

  lemma AppUpdate<K(!new)>(rest: map<K, HeapApp>, k: K, app: HeapApp)
    requires SeparateApps(rest) && k !in rest && app.Valid() && app.Own() && app.Objects() !! AppsObjects(rest)
    ensures ValidApps(rest) && ValidApps(rest[k := app]) && SeparateApps(rest[k := app])
    ensures AppsObjects(rest[k := app]) <= AppsObjects(rest) + app.Objects()
    ensures AppsContents(rest[k := app]) == AppsContents(rest)[k := app.Contents()]
  {
    hide HeapApp.Objects, HeapApp.Contents, HeapApp.Own, HeapApp.Valid;
    assert forall l :: l in rest ==> rest[l].Objects() <= AppsObjects(rest);
  }

  /** One visit of the merge. */
  method PutApp(apps: map<string, HeapApp>, id: string, added: HeapApp) returns (apps': map<string, HeapApp>)
    requires SeparateApps(apps) && ValidApps(apps) && added.Valid() && added.Own() &&
      added.Objects() !! AppsObjects(apps)
    modifies if id in apps then apps[id].Objects() else {}
    ensures SeparateApps(apps') && ValidApps(apps')
    ensures forall o :: o in AppsObjects(apps') ==> o in old(AppsObjects(apps)) || o in old(added.Objects()) || fresh(o)
    ensures AppsContents(apps') == Visited(old(AppsContents(apps)), id, old(added.Contents()))
  {
    hide HeapApp.Objects, HeapApp.Contents, HeapApp.Own, HeapApp.Valid, SeparateApps, ValidApps, AppsObjects;
    hide AppsContents, GroupMaps, MergedApp;
    AppsRest(apps, id);
    ghost var rest := apps - {id};
    ghost var others, before, contents := AppsObjects(rest), AppsContents(apps), AppsContents(rest);
    assert allocated(others);
    var app := added;
    if id in apps {
      AppIn(apps, id);
      ghost var ours, theirs := apps[id].Objects(), added.Objects();
      label L:
      app := MergeApp(apps[id], added);
      assert forall o :: o in app.Objects() ==> o in ours || o in theirs || fresh@L(o);
    }
    assert SeparateApps(rest) && ValidApps(rest) && AppsObjects(rest) == others && AppsContents(rest) == contents;
    AppUpdate(rest, id, app);
    apps' := apps[id := app];
    assert apps' == rest[id := app];
    assert contents[id := app.Contents()] == before[id := app.Contents()];
  }

  // ---- Clones ----

  /** slices.Clone */
  method CloneSlice(s: Slice<Host>) returns (c: Slice<Host>)
    requires s.Valid()
    ensures c.Valid() && fresh(c.data) && c.Contents() == s.Contents()
  {
    var empty := Nil();
    c := Append(empty, s.Contents());
  }

  /** maps.Clone; nil stays nil. */
  method CloneTags(tags: GoMap?<string>) returns (c: GoMap?<string>)
    ensures TagsOf(c) == TagsOf(tags) && (c != null ==> fresh(c))
  {
    if tags == null {
      c := null;
    } else {
      c := new GoMap(tags.entries);
    }
  }

  method CloneGroup(group: HeapGroup) returns (c: HeapGroup)
    requires group.Valid()
    ensures c.Valid() && fresh(c.Objects()) && c.Contents() == old(group.Contents())
  {
    var hosts := CloneSlice(group.hosts);
    var tags := CloneTags(group.tags);
    c := HeapGroup(hosts, tags);
  }

  /** How far a clone has come. */
  ghost predicate Copies<K, V>(copied: map<K, V>, contents: map<K, V>, todo: set<K>) {
    copied.Keys == contents.Keys - todo && forall k :: k in copied ==> copied[k] == contents[k]
  }

  lemma CopiesNothing<K, V>(contents: map<K, V>)
    ensures Copies(map[], contents, contents.Keys)
  {
  }

  lemma CopiesMore<K, V>(copied: map<K, V>, contents: map<K, V>, todo: set<K>, k: K)
    requires Copies(copied, contents, todo) && k in todo && k in contents
    ensures k !in copied && Copies(copied[k := contents[k]], contents, todo - {k})
  {
  }

  lemma CopiesAll<K, V>(copied: map<K, V>, contents: map<K, V>)
    requires Copies(copied, contents, {})
    ensures copied == contents
  {
  }

  method AddClonedGroup(cs: map<string, HeapGroup>, g: string, group: HeapGroup) returns (cs': map<string, HeapGroup>)
    requires ValidGroups(cs) && SeparateGroups(cs) && g !in cs && group.Valid()
    ensures ValidGroups(cs') && SeparateGroups(cs') && cs'.Keys == cs.Keys + {g}
    ensures forall o :: o in GroupsObjects(cs') ==> o in GroupsObjects(cs) || fresh(o)
    ensures GroupsContents(cs') == old(GroupsContents(cs))[g := old(group.Contents())]
  {
    hide HeapGroup.Objects, HeapGroup.Contents, SeparateGroups, ValidGroups, GroupsObjects, GroupsContents;
    ghost var before, copied := GroupsObjects(cs), GroupsContents(cs);
    assert allocated(before);
    var c := CloneGroup(group);
    assert c.Objects() !! before && GroupsContents(cs) == copied;
    GroupUpdate(cs, g, c);
    cs' := cs[g := c];
  }

  /** Groups that may share objects get objects of their own. */
  method CloneGroupEntries(gs: map<string, HeapGroup>) returns (cs: map<string, HeapGroup>)
    requires ValidGroups(gs)
    ensures ValidGroups(cs) && SeparateGroups(cs) && forall o :: o in GroupsObjects(cs) ==> fresh(o)
    ensures GroupsContents(cs) == old(GroupsContents(gs))
  {
    hide HeapGroup.Objects, HeapGroup.Contents, SeparateGroups, ValidGroups, GroupsObjects, GroupsContents, Copies;
    cs := map[];
    ghost var contents, theirs := GroupsContents(gs), GroupsObjects(gs);
    assert allocated(theirs);
    NoGroups();
    GroupsKeys(gs);
    CopiesNothing(contents);
    var todo := gs.Keys;
    while todo != {}
      invariant todo <= gs.Keys
      invariant ValidGroups(cs) && SeparateGroups(cs) && forall o :: o in GroupsObjects(cs) ==> fresh(o)
      invariant GroupsContents(gs) == contents && Copies(GroupsContents(cs), contents, todo)
      decreases |todo|
    {
      var g :| g in todo;
      ghost var before := GroupsObjects(cs);
      GroupContentsAt(gs, g);
      GroupsKeys(cs);
      CopiesMore(GroupsContents(cs), contents, todo, g);
      label L:
      cs := AddClonedGroup(cs, g, gs[g]);
      assert forall o :: o in GroupsObjects(cs) ==> o in before || fresh@L(o);
      assert GroupsContents(gs) == contents;
      todo := todo - {g};
    }
    CopiesAll(GroupsContents(cs), contents);
  }

  lemma GroupContentsAt(gs: map<string, HeapGroup>, g: string)
    requires ValidGroups(gs) && g in gs
    ensures gs[g].Valid() && g in GroupsContents(gs) && GroupsContents(gs)[g] == gs[g].Contents()
  {
  }

  method CloneApp(app: HeapApp) returns (c: HeapApp)
    requires app.Valid()
    ensures c.Valid() && c.Own() && fresh(c.Objects()) && c.Contents() == old(app.Contents())
  {
    hide HeapGroup.Objects, HeapGroup.Contents, SeparateGroups, ValidGroups, GroupsObjects, GroupsContents;
    ghost var contents, theirs := app.Contents(), app.Objects();
    assert allocated(theirs);
    var hosts := CloneSlice(app.hosts);
    var tags := CloneTags(app.tags);
    var groups: GoMap?<HeapGroup> := null;
    assert app.Contents() == contents && hosts.Contents() == contents.hosts && TagsOf(tags) == contents.tags;
    if app.groups != null {
      label L:
      var entries := CloneGroupEntries(app.groups.entries);
      assert hosts.Contents() == contents.hosts && TagsOf(tags) == contents.tags;
      ghost var objects, copied := GroupsObjects(entries), GroupsContents(entries);
      assert allocated(objects) && forall o :: o in objects ==> fresh@L(o);
      groups := new GoMap(entries);
      assert GroupsContents(entries) == copied;
    }
    c := app.(hosts := hosts, tags := tags, groups := groups);
  }

  method AddClonedApp<K(!new, ==)>(cs: map<K, HeapApp>, k: K, app: HeapApp) returns (cs': map<K, HeapApp>)
    requires ValidApps(cs) && SeparateApps(cs) && k !in cs && app.Valid()
    ensures ValidApps(cs') && SeparateApps(cs') && cs'.Keys == cs.Keys + {k}
    ensures forall o :: o in AppsObjects(cs') ==> o in old(AppsObjects(cs)) || fresh(o)
    ensures AppsContents(cs') == old(AppsContents(cs))[k := old(app.Contents())]
  {
    hide HeapApp.Objects, HeapApp.Contents, HeapApp.Own, HeapApp.Valid, SeparateApps, ValidApps, AppsObjects;
    hide AppsContents, GroupMaps;
    ghost var before, copied := AppsObjects(cs), AppsContents(cs);
    assert allocated(before);
    GroupMapsIn(cs);
    var c := CloneApp(app);
    assert c.Objects() !! before;
    assert ValidApps(cs) && SeparateApps(cs) && AppsObjects(cs) == before && AppsContents(cs) == copied;
    AppUpdate(cs, k, c);
    cs' := cs[k := c];
  }

  /** Apps that may share objects get objects of their own. */
  method CloneApps<K(!new, ==)>(apps: map<K, HeapApp>) returns (cs: map<K, HeapApp>)
    requires ValidApps(apps)
    ensures ValidApps(cs) && SeparateApps(cs) && forall o :: o in AppsObjects(cs) ==> fresh(o)
    ensures AppsContents(cs) == old(AppsContents(apps))
  {
    hide HeapApp.Objects, HeapApp.Contents, HeapApp.Own, HeapApp.Valid, SeparateApps, ValidApps, AppsObjects;
    hide AppsContents, GroupMaps, Copies;
    cs := map[];
    ghost var contents, theirs, maps := AppsContents(apps), AppsObjects(apps), GroupMaps(apps);
    assert allocated(theirs) && allocated(maps);
    NoApps<K>();
    AppsKeys(apps);
    CopiesNothing(contents);
    var todo := apps.Keys;
    while todo != {}
      invariant todo <= apps.Keys
      invariant ValidApps(cs) && SeparateApps(cs) && forall o :: o in AppsObjects(cs) ==> fresh(o)
      invariant ValidApps(apps) && AppsContents(apps) == contents && Copies(AppsContents(cs), contents, todo)
      decreases |todo|
    {
      var k :| k in todo;
      ghost var before := AppsObjects(cs);
      AppContentsAt(apps, k);
      AppsKeys(cs);
      CopiesMore(AppsContents(cs), contents, todo, k);
      label L:
      cs := AddClonedApp(cs, k, apps[k]);
      assert forall o :: o in AppsObjects(cs) ==> o in before || fresh@L(o);
      assert ValidApps(apps) && AppsContents(apps) == contents;
      todo := todo - {k};
    }
    CopiesAll(AppsContents(cs), contents);
  }

  lemma NoApps<K(!new)>()
    ensures var none: map<K, HeapApp> := map[];
      ValidApps(none) && SeparateApps(none) && AppsObjects(none) == {} && AppsContents(none) == map[] &&
        GroupMaps(none) == {}
  {
  }

  lemma AppsKeys<K(!new)>(apps: map<K, HeapApp>)
    requires ValidApps(apps)
    ensures AppsContents(apps).Keys == apps.Keys
  {
  }

  lemma AppContentsAt<K(!new)>(apps: map<K, HeapApp>, k: K)
    requires ValidApps(apps) && k in apps
    ensures apps[k].Valid() && k in AppsContents(apps) && AppsContents(apps)[k] == apps[k].Contents()
  {
  }

  // ---- The store ----

  /** The routing tag comes from the configuration; the rest is refreshed from the controllers. */
  datatype HeapNamespace = HeapNamespace(routingTag: string, apps: map<string, HeapApp>, leader: string,
      knownVhosts: set<string>)

  type HeapStore = map<string, HeapNamespace>

  /** All apps of all namespaces. */
  function Flat(namespaces: HeapStore): map<Visit, HeapApp> {
    map ns, id | ns in namespaces && id in namespaces[ns].apps :: (ns, id) := namespaces[ns].apps[id]
  }

  /** The store's contents, from those of its apps. */
  ghost function StoreOf(namespaces: HeapStore, contents: map<Visit, App>): Store
    requires contents.Keys == Flat(namespaces).Keys
  {
    map ns | ns in namespaces ::
      Namespace(namespaces[ns].routingTag,
        map id | id in namespaces[ns].apps && (ns, id) in contents :: contents[(ns, id)])
  }

  lemma StoreIs(namespaces: HeapStore, contents: map<Visit, App>)
    requires contents.Keys == Flat(namespaces).Keys
    ensures AllVisits(StoreOf(namespaces, contents)) == contents.Keys
    ensures forall v: Visit :: v in contents ==> Stored(namespaces, StoreOf(namespaces, contents), v, contents[v])
  {
    var store := StoreOf(namespaces, contents);
    forall v: Visit ensures v in contents <==> InStore(store, v) {
      assert v == (v.0, v.1);
      assert v in contents <==> v in Flat(namespaces);
    }
  }

  ghost predicate Stored(namespaces: HeapStore, store: Store, v: Visit, app: App) {
    v.0 in namespaces && InStore(store, v) && AppOf(store, v) == app.(routingTagKey := namespaces[v.0].routingTag)
  }

  /** One visit of the merge of createRenderingData. */
  method MergeOne(namespaces: HeapStore, rest: map<Visit, HeapApp>, apps: map<string, HeapApp>, v: Visit,
      ghost store: Store, ghost contents: map<Visit, App>, ghost visits: seq<Visit>)
    returns (apps': map<string, HeapApp>)
    requires ValidApps(apps) && SeparateApps(apps) && ValidApps(rest) && SeparateApps(rest)
    requires AppsObjects(rest) !! AppsObjects(apps)
    requires Progress(store, contents, visits, AppsContents(rest), AppsContents(apps))
    requires v in rest && v in contents && Stored(namespaces, store, v, contents[v])
    modifies AppsObjects(apps)
    ensures ValidApps(apps') && SeparateApps(apps') && ValidApps(rest - {v}) && SeparateApps(rest - {v})
    ensures forall o :: o in AppsObjects(apps') ==>
      o in old(AppsObjects(apps)) || o in old(AppsObjects(rest)) || fresh(o)
    ensures AppsObjects(rest - {v}) <= old(AppsObjects(rest)) && AppsObjects(rest - {v}) !! AppsObjects(apps')
    ensures Progress(store, contents, visits + [v], AppsContents(rest - {v}), AppsContents(apps'))
  {
    hide HeapApp.Objects, HeapApp.Contents, HeapApp.Own, HeapApp.Valid, SeparateApps, ValidApps, AppsObjects;
    hide AppsContents, GroupMaps, InStore, AppOf, Visited, Progress, Stored;
    AppIn(rest, v);
    AppsRest(rest, v);
    AppsKeys(rest);
    ProgressStep(namespaces, store, contents, visits, AppsContents(rest), AppsContents(apps), v);
    var app := rest[v].(routingTagKey := namespaces[v.0].routingTag);
    KeyIsNoObject(rest[v], namespaces[v.0].routingTag);
    if v.1 in apps {
      AppIn(apps, v.1);
    }
    ghost var others, own, ours, remaining := AppsObjects(rest - {v}), rest[v].Objects(), AppsObjects(apps),
      AppsContents(rest - {v});
    assert allocated(others) && others !! ours && others !! own;
    label L:
    apps' := PutApp(apps, v.1, app);
    assert forall o :: o in AppsObjects(apps') ==> o in ours || o in own || fresh@L(o);
    ghost var rest' := rest - {v};
    assert SeparateApps(rest') && ValidApps(rest') && AppsObjects(rest') == others && AppsContents(rest') == remaining;
  }

  /** The merge of createRenderingData, on apps that have their objects to themselves: one namespace
      after the other, all its apps in any order. */
  method MergeClones(namespaces: HeapStore, clones: map<Visit, HeapApp>, ghost store: Store)
    returns (allApps: map<string, HeapApp>, ghost visits: seq<Visit>)
    requires ValidApps(clones) && SeparateApps(clones)
    requires AllVisits(store) == clones.Keys == AppsContents(clones).Keys == Flat(namespaces).Keys
    requires forall v :: v in clones ==> Stored(namespaces, store, v, AppsContents(clones)[v])
    modifies AppsObjects(clones)
    ensures ValidApps(allApps) && SeparateApps(allApps)
    ensures forall o :: o in AppsObjects(allApps) ==> o in old(AppsObjects(clones)) || fresh(o)
    ensures Walk(store, visits) && forall i :: 0 <= i < |visits| ==> InStore(store, visits[i])
    ensures AppsContents(allApps) == RenderAll(store, visits)
  {
    hide SeparateApps, ValidApps, AppsObjects, AppsContents, GroupMaps;
    hide AllVisits, InStore, AppOf, RenderAll, Progress, Walk, Stored, Between, Inside, Flat;
    ghost var contents, objects, all := AppsContents(clones), AppsObjects(clones), clones.Keys;
    var rest, left := clones, namespaces.Keys;
    allApps, visits := map[], [];
    NoApps<string>();
    ProgressStarts(store, contents);
    BetweenStarts(namespaces, all);
    while left != {}
      invariant ValidApps(allApps) && SeparateApps(allApps) && ValidApps(rest) && SeparateApps(rest)
      invariant forall o :: o in AppsObjects(allApps) ==> o in objects || fresh(o)
      invariant AppsObjects(rest) <= objects && AppsObjects(rest) !! AppsObjects(allApps)
      invariant Progress(store, contents, visits, AppsContents(rest), AppsContents(allApps))
      invariant left <= namespaces.Keys && Between(all, visits, rest.Keys, left)
      decreases |left|
    {
      var ns :| ns in left;
      var ids := namespaces[ns].apps.Keys;
      InsideStarts(namespaces, all, visits, rest.Keys, left, ns);
      while ids != {}
        invariant ValidApps(allApps) && SeparateApps(allApps) && ValidApps(rest) && SeparateApps(rest)
        invariant forall o :: o in AppsObjects(allApps) ==> o in objects || fresh(o)
        invariant AppsObjects(rest) <= objects && AppsObjects(rest) !! AppsObjects(allApps)
        invariant Progress(store, contents, visits, AppsContents(rest), AppsContents(allApps))
        invariant Inside(all, visits, rest.Keys, left, ns, ids)
        decreases |ids|
      {
        var id :| id in ids;
        InsideStep(all, visits, rest.Keys, left, ns, ids, id);
        ghost var ours, theirs := AppsObjects(allApps), AppsObjects(rest);
        label L:
        allApps := MergeOne(namespaces, rest, allApps, (ns, id), store, contents, visits);
        assert forall o :: o in AppsObjects(allApps) ==> o in ours || o in theirs || fresh@L(o);
        rest := rest - {(ns, id)};
        visits := visits + [(ns, id)];
        ids := ids - {id};
      }
      InsideEnds(all, visits, rest.Keys, left, ns);
      left := left - {ns};
    }
    BetweenEnds(all, visits, rest.Keys);
    AppsKeys(rest);
    assert AppsContents(rest) == map[];
    ProgressEnds(store, contents, visits, AppsContents(allApps));
  }

  // ---- Where the walk is ----

  /** Between two namespaces: those in `left` are untouched, the others finished. */
  ghost predicate Between(all: set<Visit>, visits: seq<Visit>, rest: set<Visit>, left: set<string>) {
    && ByNamespace(visits) && (forall i :: 0 <= i < |visits| ==> visits[i].0 !in left)
    && (forall v :: v in rest <==> v in all && v.0 in left)
  }

  /** Inside a namespace, with some of its apps to go. */
  ghost predicate Inside(all: set<Visit>, visits: seq<Visit>, rest: set<Visit>, left: set<string>, ns: string,
      ids: set<string>) {
    && ByNamespace(visits) && ns in left && (forall i :: 0 <= i < |visits| ==> visits[i].0 !in left - {ns})
    && (forall i, k :: 0 <= i < k < |visits| && visits[i].0 == ns ==> visits[k].0 == ns)
    && (forall v :: v in rest <==> v in all && v.0 in left && (v.0 == ns ==> v.1 in ids))
    && (forall id :: id in ids ==> (ns, id) in all)
  }

  lemma BetweenStarts(namespaces: HeapStore, all: set<Visit>)
    requires all == Flat(namespaces).Keys
    ensures Between(all, [], all, namespaces.Keys)
  {
    hide Flat;
    forall v | v in all ensures v.0 in namespaces {
      FlatAt(namespaces, v);
    }
  }

  lemma InsideStarts(namespaces: HeapStore, all: set<Visit>, visits: seq<Visit>, rest: set<Visit>, left: set<string>,
      ns: string)
    requires all == Flat(namespaces).Keys && ns in namespaces
    requires Between(all, visits, rest, left) && ns in left
    ensures Inside(all, visits, rest, left, ns, namespaces[ns].apps.Keys)
  {
    hide Flat;
    forall v: Visit ensures v.0 == ns ==> (v in all <==> v.1 in namespaces[ns].apps) {
      FlatAt(namespaces, v);
    }
    forall id | id in namespaces[ns].apps ensures (ns, id) in all {
      FlatAt(namespaces, (ns, id));
    }
  }

  lemma InsideStep(all: set<Visit>, visits: seq<Visit>, rest: set<Visit>, left: set<string>, ns: string,
      ids: set<string>, id: string)
    requires Inside(all, visits, rest, left, ns, ids) && id in ids
    ensures (ns, id) in rest && (ns, id) in all
    ensures Inside(all, visits + [(ns, id)], rest - {(ns, id)}, left, ns, ids - {id})
  {
    var v := (ns, id);
    forall w: Visit ensures w in rest - {v} <==> w in all && w.0 in left && (w.0 == ns ==> w.1 in ids - {id}) {
      assert w == (w.0, w.1);
    }
  }

  lemma InsideEnds(all: set<Visit>, visits: seq<Visit>, rest: set<Visit>, left: set<string>, ns: string)
    requires Inside(all, visits, rest, left, ns, {})
    ensures Between(all, visits, rest, left - {ns})
  {
    hide ByNamespace;
  }

  lemma BetweenEnds(all: set<Visit>, visits: seq<Visit>, rest: set<Visit>)
    requires Between(all, visits, rest, {})
    ensures ByNamespace(visits) && rest == {}
  {
    hide ByNamespace;
  }

  /** How far the merge has come. */
  ghost predicate Progress(store: Store, contents: map<Visit, App>, visits: seq<Visit>,
      remaining: map<Visit, App>, rendered: map<string, App>) {
    && remaining.Keys <= contents.Keys && (forall v :: v in remaining ==> remaining[v] == contents[v])
    && multiset(visits) + multiset(remaining.Keys) == multiset(AllVisits(store))
    && (forall i :: 0 <= i < |visits| ==> InStore(store, visits[i]))
    && rendered == RenderAll(store, visits)
  }

  lemma ProgressStarts(store: Store, contents: map<Visit, App>)
    requires contents.Keys == AllVisits(store)
    ensures Progress(store, contents, [], contents, map[])
  {
  }

  lemma ProgressStep(namespaces: HeapStore, store: Store, contents: map<Visit, App>, visits: seq<Visit>,
      remaining: map<Visit, App>, rendered: map<string, App>, v: Visit)
    requires Progress(store, contents, visits, remaining, rendered) && v in remaining
    requires v in contents && Stored(namespaces, store, v, contents[v])
    ensures v.0 in namespaces
    ensures Progress(store, contents, visits + [v], remaining - {v},
      Visited(rendered, v.1, remaining[v].(routingTagKey := namespaces[v.0].routingTag)))
  {
    hide Visited, AllVisits, RenderAll;
    RenderOneMore(store, visits, v);
    WalkOneMore(visits, remaining.Keys, v);
    assert (remaining - {v}).Keys == remaining.Keys - {v};
  }

  lemma ProgressEnds(store: Store, contents: map<Visit, App>, visits: seq<Visit>, rendered: map<string, App>)
    requires Progress(store, contents, visits, map[], rendered) && ByNamespace(visits)
    ensures Walk(store, visits) && (forall i :: 0 <= i < |visits| ==> InStore(store, visits[i])) &&
      rendered == RenderAll(store, visits)
  {
    hide RenderAll, AllVisits, ByNamespace;
    var none: map<Visit, App> := map[];
    assert none.Keys == {};
  }

  lemma RenderOneMore(store: Store, visits: seq<Visit>, v: Visit)
    requires InStore(store, v) && forall i :: 0 <= i < |visits| ==> InStore(store, visits[i])
    ensures RenderAll(store, visits + [v]) == Visited(RenderAll(store, visits), v.1, AppOf(store, v))
  {
    assert (visits + [v])[..|visits|] == visits;
  }

  lemma WalkOneMore(visits: seq<Visit>, todo: set<Visit>, v: Visit)
    requires v in todo
    ensures multiset(visits + [v]) + multiset(todo - {v}) == multiset(visits) + multiset(todo)
  {
  }

  ghost predicate ValidStore(nss: HeapStore)
    reads GroupMaps(Flat(nss))
  {
    ValidApps(Flat(nss))
  }

  ghost function StoreContents(nss: HeapStore): Store
    requires ValidStore(nss)
    reads GroupMaps(Flat(nss)), AppsObjects(Flat(nss))
  {
    AppsKeys(Flat(nss));
    StoreOf(nss, AppsContents(Flat(nss)))
  }

  ghost function StoreObjects(nss: HeapStore): set<object>
    reads GroupMaps(Flat(nss))
  {
    GroupMaps(Flat(nss)) + AppsObjects(Flat(nss))
  }

  /** What does not touch its objects does not touch a store. */
  twostate lemma StoreFrame(nss: HeapStore)
    requires old(ValidStore(nss)) && unchanged(old(StoreObjects(nss)))
    ensures ValidStore(nss) && StoreObjects(nss) == old(StoreObjects(nss)) &&
      StoreContents(nss) == old(StoreContents(nss))
  {
  }

  twostate lemma AppsFrame(apps: map<string, HeapApp>)
    requires old(ValidApps(apps)) && unchanged(old(GroupMaps(apps) + AppsObjects(apps)))
    ensures ValidApps(apps) && AppsContents(apps) == old(AppsContents(apps))
  {
  }

  lemma NamespaceIn(nss: HeapStore, ns: string)
    requires ValidStore(nss) && ns in nss
    ensures ValidApps(nss[ns].apps) && ns in StoreContents(nss)
    ensures StoreContents(nss)[ns] == Namespace(nss[ns].routingTag, AppsContents(nss[ns].apps))
  {
    hide HeapApp.Objects, HeapApp.Contents, HeapApp.Own, HeapApp.Valid;
    var flat := Flat(nss);
    forall id | id in nss[ns].apps ensures (ns, id) in flat && flat[(ns, id)] == nss[ns].apps[id] {
    }
    AppsKeys(flat);
    assert StoreContents(nss)[ns].apps == AppsContents(nss[ns].apps);
  }

  lemma FlatAt(nss: HeapStore, v: Visit)
    ensures v in Flat(nss) <==> v.0 in nss && v.1 in nss[v.0].apps
    ensures v in Flat(nss) ==> Flat(nss)[v] == nss[v.0].apps[v.1]
  {
    assert v == (v.0, v.1);
  }

  lemma FlatUpdate(nss: HeapStore, ns: string, h: HeapNamespace)
    ensures forall v: Visit :: v in Flat(nss[ns := h]) ==>
      if v.0 == ns then v.1 in h.apps && Flat(nss[ns := h])[v] == h.apps[v.1]
        else v in Flat(nss) && Flat(nss[ns := h])[v] == Flat(nss)[v]
    ensures forall v: Visit :: v in Flat(nss) && v.0 != ns ==> v in Flat(nss[ns := h])
    ensures forall id :: id in h.apps ==> (ns, id) in Flat(nss[ns := h])
  {
    hide Flat;
    forall v: Visit
      ensures v in Flat(nss[ns := h]) ==>
        if v.0 == ns then v.1 in h.apps && Flat(nss[ns := h])[v] == h.apps[v.1]
          else v in Flat(nss) && Flat(nss[ns := h])[v] == Flat(nss)[v]
      ensures v in Flat(nss) && v.0 != ns ==> v in Flat(nss[ns := h])
    {
      FlatAt(nss, v);
      FlatAt(nss[ns := h], v);
    }
    forall id | id in h.apps ensures (ns, id) in Flat(nss[ns := h]) {
      FlatAt(nss[ns := h], (ns, id));
    }
  }

  lemma NamespaceUpdateObjects(nss: HeapStore, ns: string, h: HeapNamespace)
    requires ValidStore(nss) && ValidApps(h.apps)
    ensures ValidStore(nss[ns := h])
    ensures StoreObjects(nss[ns := h]) <= StoreObjects(nss) + GroupMaps(h.apps) + AppsObjects(h.apps)
  {
    hide HeapApp.Objects, HeapApp.Contents, HeapApp.Own, HeapApp.Valid, Flat;
    var flat, flat' := Flat(nss), Flat(nss[ns := h]);
    FlatUpdate(nss, ns, h);
    forall v: Visit | v in flat'
      ensures flat'[v].Valid()
      ensures flat'[v].Objects() <= AppsObjects(flat) + AppsObjects(h.apps)
      ensures flat'[v].groups != null ==> flat'[v].groups in GroupMaps(flat) + GroupMaps(h.apps)
    {
      if v.0 == ns {
        assert v.1 in h.apps && flat'[v] == h.apps[v.1];
      } else {
        assert v in flat && flat'[v] == flat[v];
      }
    }
  }

  lemma NamespaceUpdate(nss: HeapStore, ns: string, h: HeapNamespace)
    requires ValidStore(nss) && ValidApps(h.apps)
    ensures ValidStore(nss[ns := h])
    ensures StoreContents(nss[ns := h]) == StoreContents(nss)[ns := Namespace(h.routingTag, AppsContents(h.apps))]
  {
    hide AppsContents, ValidApps, GroupMaps, AppsObjects, Flat, ValidStore, StoreContents;
    var nss' := nss[ns := h];
    NamespaceUpdateObjects(nss, ns, h);
    StoreKeys(nss);
    StoreKeys(nss');
    forall n | n in nss'
      ensures StoreContents(nss')[n]
           == if n == ns then Namespace(h.routingTag, AppsContents(h.apps)) else StoreContents(nss)[n]
    {
      NamespaceIn(nss', n);
      if n != ns {
        NamespaceIn(nss, n);
      }
    }
  }

  lemma StoreKeys(nss: HeapStore)
    requires ValidStore(nss)
    ensures StoreContents(nss).Keys == nss.Keys
    ensures forall ns :: ns in nss ==> StoreContents(nss)[ns].routingTag == nss[ns].routingTag
  {
  }

  /** What an import makes of a store. */
  function Restored(store: Store, snapshot: Store, names: set<string>): Store {
    map ns | ns in store ::
      if ns in names && ns in snapshot then Namespace(store[ns].routingTag, snapshot[ns].apps) else store[ns]
  }

  /** The namespaces that an import takes over. */
  function Chosen(snapshot: set<string>, existing: set<string>, chosen: Option<set<string>>): set<string> {
    set ns | ns in snapshot && ns in existing && (chosen.Some? ==> ns in chosen.value)
  }

  lemma ChosenNone(existing: set<string>, chosen: Option<set<string>>)
    ensures Chosen({}, existing, chosen) == {}
  {
  }

  lemma ChosenMore(names: set<string>, existing: set<string>, chosen: Option<set<string>>, ns: string)
    ensures Chosen(names + {ns}, existing, chosen)
         == Chosen(names, existing, chosen) + if ns in existing && (chosen.Some? ==> ns in chosen.value) then {ns}
           else {}
  {
  }

  /** All but apps and routing tag of the given namespaces comes from the snapshot; nothing else
      has changed, and a routing tag never does. */
  ghost predicate Imports(nss: HeapStore, snapshot: HeapStore, nss': HeapStore, names: set<string>) {
    && (forall ns :: ns in names ==> ns in snapshot && ns in nss' && ImportsOne(nss, snapshot[ns], nss'[ns], ns))
    && (forall ns :: ns in nss' && ns !in names ==> ns in nss && nss'[ns] == nss[ns])
  }

  ghost predicate ImportsOne(nss: HeapStore, source: HeapNamespace, h: HeapNamespace, ns: string) {
    h == source.(routingTag := if ns in nss then nss[ns].routingTag else source.routingTag, apps := h.apps)
  }

  lemma ImportsNothing(nss: HeapStore, snapshot: HeapStore)
    ensures Imports(nss, snapshot, nss, {})
  {
  }

  lemma ImportsMore(nss: HeapStore, snapshot: HeapStore, nss': HeapStore, names: set<string>, ns: string,
      h: HeapNamespace)
    requires Imports(nss, snapshot, nss', names) && ns in snapshot
    requires ns in nss ==> ns in nss'
    requires h == snapshot[ns].(routingTag := if ns in nss then nss'[ns].routingTag else snapshot[ns].routingTag,
      apps := h.apps)
    ensures Imports(nss, snapshot, nss'[ns := h], names + {ns})
    ensures nss'[ns := h].Keys == nss'.Keys + {ns}
  {
  }

  lemma MoveName(todo: set<string>, done: set<string>, ns: string)
    requires ns in todo
    ensures (todo - {ns}) + (done + {ns}) == todo + done
  {
  }

  lemma ReplaceKey(names: set<string>, ns: string)
    requires ns in names
    ensures names + {ns} == names
  {
  }

  lemma ImportsTag(nss: HeapStore, snapshot: HeapStore, nss': HeapStore, names: set<string>, ns: string)
    requires Imports(nss, snapshot, nss', names) && ns in nss && ns in nss'
    ensures nss'[ns].routingTag == nss[ns].routingTag
  {
  }

  /** The stores differ at most in one namespace's apps; taking that one over makes them equal. */
  lemma ImportUndoes(before: Store, updated: Store, ns: string)
    requires updated.Keys == before.Keys
    requires forall n :: n in before && n != ns ==> updated[n] == before[n]
    requires ns in before ==> updated[ns].routingTag == before[ns].routingTag
    ensures Restored(updated, before, Chosen(before.Keys, before.Keys, Some({ns}))) == before
  {
  }

  lemma RestoredNothing(store: Store, snapshot: Store)
    ensures Restored(store, snapshot, {}) == store
  {
  }

  lemma RestoredMore(store: Store, snapshot: Store, names: set<string>, ns: string)
    requires ns in store && ns in snapshot
    ensures Restored(store, snapshot, names + {ns})
      == Restored(store, snapshot, names)[ns := Namespace(store[ns].routingTag, snapshot[ns].apps)]
  {
  }

  /** Copies of a namespace's apps, to be stored under a name. */
  method CloneOnto(nss: HeapStore, ns: string, source: HeapNamespace, routingTag: string) returns (h: HeapNamespace)
    requires ValidStore(nss) && ValidApps(source.apps)
    ensures h == source.(routingTag := routingTag, apps := h.apps)
    ensures ValidStore(nss[ns := h])
    ensures StoreContents(nss[ns := h])
      == old(StoreContents(nss))[ns := Namespace(routingTag, old(AppsContents(source.apps)))]
    ensures forall o :: o in StoreObjects(nss[ns := h]) ==> o in old(StoreObjects(nss)) || fresh(o)
  {
    hide ValidApps, AppsObjects, AppsContents, GroupMaps, Flat, ValidStore, StoreContents, StoreObjects;
    ghost var before := StoreObjects(nss);
    assert allocated(before);
    var clone := CloneApps(source.apps);
    StoreFrame(nss);
    GroupMapsIn(clone);
    h := source.(routingTag := routingTag, apps := clone);
    NamespaceUpdate(nss, ns, h);
    NamespaceUpdateObjects(nss, ns, h);
  }

  /** cloneNamespaces */
  method CloneNamespaces(nss: HeapStore) returns (cs: HeapStore)
    requires ValidStore(nss)
    ensures ValidStore(cs) && StoreContents(cs) == old(StoreContents(nss)) && cs.Keys == nss.Keys
    ensures Imports(map[], nss, cs, cs.Keys)
    ensures forall o :: o in StoreObjects(cs) ==> fresh(o)
  {
    hide ValidApps, AppsObjects, AppsContents, GroupMaps, Flat, ValidStore, StoreContents, StoreObjects, Copies;
    hide Imports;
    cs := map[];
    ghost var contents, theirs := StoreContents(nss), StoreObjects(nss);
    assert allocated(theirs);
    NoNamespaces();
    StoreKeys(nss);
    CopiesNothing(contents);
    ImportsNothing(map[], nss);
    ghost var done := {};
    assert cs.Keys == done;
    var todo := nss.Keys;
    while todo != {}
      invariant todo + done == nss.Keys && cs.Keys == done
      invariant Imports(map[], nss, cs, done)
      invariant ValidStore(cs) && fresh(StoreObjects(cs))
      invariant ValidStore(nss) && StoreObjects(nss) == theirs && StoreContents(nss) == contents
      invariant Copies(StoreContents(cs), contents, todo)
      decreases |todo|
    {
      var ns :| ns in todo;
      NamespaceIn(nss, ns);
      CopiesMore(StoreContents(cs), contents, todo, ns);
      ghost var before := StoreObjects(cs);
      label L:
      var h := CloneOnto(cs, ns, nss[ns], nss[ns].routingTag);
      ImportsMore(map[], nss, cs, done, ns, h);
      StoreFrame@L(nss);
      cs := cs[ns := h];
      assert forall o :: o in StoreObjects(cs) ==> o in before || (fresh@L(o) && fresh(o));
      MoveName(todo, done, ns);
      todo := todo - {ns};
      done := done + {ns};
    }
    CopiesAll(StoreContents(cs), contents);
  }

  /** One namespace of an import; it keeps its routing tag. */
  method ImportOne(start: HeapStore, snapshot: HeapStore, nss: HeapStore, ns: string,
      ghost names: set<string>) returns (nss': HeapStore)
    requires ValidStore(nss) && ValidStore(snapshot) && Imports(start, snapshot, nss, names)
    requires ns in snapshot && ns in start && ns in nss
    ensures ValidStore(nss') && nss'.Keys == nss.Keys && Imports(start, snapshot, nss', names + {ns})
    ensures ns in old(StoreContents(snapshot))
    ensures StoreContents(nss')
      == old(StoreContents(nss))[ns := Namespace(start[ns].routingTag, old(StoreContents(snapshot))[ns].apps)]
    ensures forall o :: o in StoreObjects(nss') ==> o in old(StoreObjects(nss)) || fresh(o)
    ensures ValidStore(snapshot) && StoreObjects(snapshot) == old(StoreObjects(snapshot)) &&
      StoreContents(snapshot) == old(StoreContents(snapshot))
  {
    hide ValidApps, AppsObjects, AppsContents, GroupMaps, Flat, ValidStore, StoreContents, StoreObjects, Imports;
    ghost var theirs := StoreObjects(snapshot);
    assert allocated(theirs);
    NamespaceIn(snapshot, ns);
    ImportsTag(start, snapshot, nss, names, ns);
    var h := CloneOnto(nss, ns, snapshot[ns], nss[ns].routingTag);
    StoreFrame(snapshot);
    ImportsMore(start, snapshot, nss, names, ns, h);
    ReplaceKey(nss.Keys, ns);
    nss' := nss[ns := h];
  }

  /** One round of the loop of an import. */
  method ImportIfChosen(start: HeapStore, snapshot: HeapStore, nss: HeapStore, ns: string,
      chosen: Option<set<string>>, ghost done: set<string>, restored: set<string>, ghost contents: Store,
          ghost taken: Store)
    returns (nss': HeapStore, restored': set<string>)
    requires ValidStore(nss) && ValidStore(snapshot) && ns in snapshot && nss.Keys == start.Keys == contents.Keys
    requires forall n :: n in start ==> contents[n].routingTag == start[n].routingTag
    requires Imports(start, snapshot, nss, restored) && restored == Chosen(done, start.Keys, chosen)
    requires StoreContents(snapshot) == taken && StoreContents(nss) == Restored(contents, taken, restored)
    ensures ValidStore(snapshot) && StoreObjects(snapshot) == old(StoreObjects(snapshot)) &&
      StoreContents(snapshot) == taken
    ensures ValidStore(nss') && nss'.Keys == start.Keys && Imports(start, snapshot, nss', restored')
    ensures restored' == Chosen(done + {ns}, start.Keys, chosen) &&
      StoreContents(nss') == Restored(contents, taken, restored')
    ensures forall o :: o in StoreObjects(nss') ==> o in old(StoreObjects(nss)) || fresh(o)
  {
    hide ValidApps, AppsObjects, AppsContents, GroupMaps, Flat, ValidStore, StoreContents, StoreObjects;
    hide Imports, Restored, Chosen;
    nss', restored' := nss, restored;
    ChosenMore(done, start.Keys, chosen, ns);
    if (chosen.None? || ns in chosen.value) && ns in nss {
      StoreKeys(snapshot);
      RestoredMore(contents, taken, restored, ns);
      nss' := ImportOne(start, snapshot, nss, ns, restored);
      restored' := restored + {ns};
    }
  }

  /** The loop of an import. */
  method ImportAll(start: HeapStore, snapshot: HeapStore, chosen: Option<set<string>>)
    returns (nss: HeapStore, restored: set<string>)
    requires ValidStore(start) && ValidStore(snapshot)
    ensures ValidStore(nss) && nss.Keys == start.Keys
    ensures ValidStore(snapshot) && StoreContents(snapshot) == old(StoreContents(snapshot))
    ensures restored == Chosen(snapshot.Keys, start.Keys, chosen)
    ensures StoreContents(nss) == Restored(old(StoreContents(start)), StoreContents(snapshot), restored)
    ensures Imports(start, snapshot, nss, restored)
    ensures forall o :: o in StoreObjects(nss) ==> o in old(StoreObjects(start)) || fresh(o)
  {
    hide ValidApps, AppsObjects, AppsContents, GroupMaps, Flat, ValidStore, StoreContents, StoreObjects;
    hide Imports, Restored, Chosen;
    ghost var theirs, ours, contents, taken := StoreObjects(snapshot), StoreObjects(start), StoreContents(start),
      StoreContents(snapshot);
    assert allocated(theirs) && allocated(ours);
    StoreKeys(start);
    StoreKeys(snapshot);
    RestoredNothing(contents, taken);
    ImportsNothing(start, snapshot);
    ChosenNone(start.Keys, chosen);
    restored := {};
    ghost var done := {};
    nss := start;
    var todo := snapshot.Keys;
    while todo != {}
      invariant todo + done == snapshot.Keys && restored == Chosen(done, start.Keys, chosen)
      invariant ValidStore(snapshot) && StoreObjects(snapshot) == theirs && StoreContents(snapshot) == taken
      invariant ValidStore(nss) && nss.Keys == start.Keys && Imports(start, snapshot, nss, restored)
      invariant StoreContents(nss) == Restored(contents, taken, restored)
      invariant forall o :: o in StoreObjects(nss) ==> o in ours || fresh(o)
      decreases |todo|
    {
      var ns :| ns in todo;
      ghost var before := StoreObjects(nss);
      label L:
      nss, restored := ImportIfChosen(start, snapshot, nss, ns, chosen, done, restored, contents, taken);
      assert forall o :: o in StoreObjects(nss) ==> o in before || fresh@L(o);
      MoveName(todo, done, ns);
      todo := todo - {ns};
      done := done + {ns};
    }
  }

  lemma NoNamespaces()
    ensures ValidStore(map[]) && StoreContents(map[]) == map[] && StoreObjects(map[]) == {}
  {
  }

  class DataManager {
    var namespaces: HeapStore

    /** Apps and groups in the store may share slices and maps with each other. */
    ghost predicate Valid()
      reads this, GroupMaps(Flat(namespaces))
    {
      ValidStore(namespaces)
    }

    ghost function Contents(): Store
      requires Valid()
      reads this, GroupMaps(Flat(namespaces)), AppsObjects(Flat(namespaces))
    {
      StoreContents(namespaces)
    }

    /** ExportSnapshot: the snapshot shares nothing with the store. */
    method ExportSnapshot() returns (snapshot: HeapStore)
      requires Valid()
      ensures Valid() && Contents() == old(Contents())
      ensures ValidStore(snapshot) && StoreContents(snapshot) == Contents()
      ensures snapshot.Keys == namespaces.Keys
      ensures Imports(map[], namespaces, snapshot, snapshot.Keys)
      ensures forall o :: o in StoreObjects(snapshot) ==> fresh(o)
    {
      hide ValidStore, StoreContents, StoreObjects;
      ghost var objects := StoreObjects(namespaces);
      assert allocated(objects);
      snapshot := CloneNamespaces(namespaces);
      StoreFrame(namespaces);
    }

    /** ImportSnapshotForNamespaces: leader, apps and vhosts of the chosen namespaces that exist in
        both; None chooses all. The store gets its own copies, so the snapshot can be used again. */
    method ImportSnapshotForNamespaces(snapshot: HeapStore,
        chosen: Option<set<string>>) returns (restored: set<string>)
      requires Valid() && ValidStore(snapshot)
      modifies this
      ensures Valid() && ValidStore(snapshot) && StoreContents(snapshot) == old(StoreContents(snapshot))
      ensures restored == Chosen(snapshot.Keys, old(namespaces).Keys, chosen)
      ensures Contents() == Restored(old(Contents()), StoreContents(snapshot), restored)
      ensures namespaces.Keys == old(namespaces).Keys && Imports(old(namespaces), snapshot, namespaces, restored)
      ensures forall o :: o in StoreObjects(namespaces) ==> o in old(StoreObjects(namespaces)) || fresh(o)
    {
      hide ValidApps, AppsObjects, AppsContents, GroupMaps, Flat, ValidStore, StoreContents, StoreObjects;
      hide Imports, Restored, Chosen;
      var nss;
      nss, restored := ImportAll(namespaces, snapshot, chosen);
      ManagerIsNoObject(this, nss);
      ManagerIsNoObject(this, snapshot);
      label End:
      namespaces := nss;
      StoreFrame@End(nss);
      StoreFrame@End(snapshot);
    }

    /** UpdateApps: the store takes over the given apps as they are; an unknown namespace is an error. */
    method UpdateApps(ns: string, apps: map<string, HeapApp>) returns (ok: bool)
      requires Valid() && ValidApps(apps)
      modifies this
      ensures Valid() && ValidApps(apps)
      ensures ok <==> ns in old(namespaces)
      ensures !ok ==> namespaces == old(namespaces) && Contents() == old(Contents())
      ensures ok ==> namespaces == old(namespaces)[ns := old(namespaces)[ns].(apps := apps)]
      ensures ok ==>
        Contents() == old(Contents())[ns := Namespace(old(namespaces)[ns].routingTag, old(AppsContents(apps)))]
    {
      hide ValidApps, AppsObjects, AppsContents, GroupMaps, Flat, ValidStore, StoreContents, StoreObjects;
      var nss := namespaces;
      ok := ns in nss;
      if ok {
        NamespaceUpdate(nss, ns, nss[ns].(apps := apps));
        nss := nss[ns := nss[ns].(apps := apps)];
      }
      ManagerIsNoObject(this, nss);
      ManagerIsNoApp(this, apps);
      label L:
      namespaces := nss;
      StoreFrame@L(nss);
      AppsFrame@L(apps);
    }

    /** A snapshot survives later updates, and importing it undoes them: what was stored before a
        namespace was updated is back, whatever the update was. */
    method RestoreUndoesUpdate(ns: string, apps: map<string, HeapApp>) returns (ok: bool)
      requires Valid() && ValidApps(apps)
      modifies this
      ensures Valid() && Contents() == old(Contents())
      ensures ok <==> ns in old(namespaces)
    {
      hide ValidApps, AppsObjects, AppsContents, GroupMaps, Flat, ValidStore, StoreContents, StoreObjects;
      hide Restored, Chosen, Imports;
      ghost var before, maps, theirs := Contents(), GroupMaps(apps), AppsObjects(apps);
      assert allocated(maps) && allocated(theirs);
      StoreKeys(namespaces);
      var snapshot := ExportSnapshot();
      ghost var objects, own := StoreObjects(snapshot), StoreObjects(namespaces);
      assert allocated(objects) && allocated(own);
      ManagerIsNoObject(this, snapshot);
      AppsFrame(apps);
      label L:
      ok := UpdateApps(ns, apps);
      StoreFrame@L(snapshot);
      ghost var updated := Contents();
      assert namespaces.Keys == before.Keys && snapshot.Keys == before.Keys && StoreContents(snapshot) == before;
      var restored := ImportSnapshotForNamespaces(snapshot, Some({ns}));
      ImportUndoes(before, updated, ns);
    }

    /** createRenderingData: clone everything, then merge app by app. It writes to nothing that was
        there before, so the store is undisturbed; the result shares nothing with it. */
    method CreateRenderingData() returns (allApps: map<string, HeapApp>, ghost visits: seq<Visit>)
      requires Valid()
      ensures Valid() && Contents() == old(Contents())
      ensures ValidApps(allApps) && SeparateApps(allApps) && fresh(AppsObjects(allApps))
      ensures Walk(Contents(), visits) && AppsContents(allApps) == RenderOf(Contents(), visits)
    {
      hide SeparateApps, ValidApps, AppsObjects, AppsContents, GroupMaps, Flat, StoreOf, AllVisits, InStore;
      hide Walk, RenderAll, Stored;
      var flat := Flat(namespaces);
      ghost var contents, store, theirs, maps := AppsContents(flat), Contents(), AppsObjects(flat), GroupMaps(flat);
      assert allocated(theirs) && allocated(maps);
      AppsKeys(flat);
      StoreIs(namespaces, contents);
      label Start:
      var clones := CloneApps(flat);
      AppsKeys(clones);
      ghost var fresh1 := AppsObjects(clones);
      assert forall o :: o in fresh1 ==> fresh@Start(o);
      label L:
      allApps, visits := MergeClones(namespaces, clones, store);
      assert forall o :: o in AppsObjects(allApps) ==> o in fresh1 || fresh@L(o);
      assert Valid() && AppsContents(flat) == contents;
    }

    /** Two renders with no update between them: the second does not disturb the first, they have
        the same content, and with the same walk they are equal. */
    method RenderTwice() returns (one: map<string, HeapApp>, two: map<string, HeapApp>,
        ghost firstWalk: seq<Visit>, ghost secondWalk: seq<Visit>)
      requires Valid()
      ensures Valid() && Contents() == old(Contents())
      ensures ValidApps(one) && ValidApps(two) && AppsObjects(one) !! AppsObjects(two)
      ensures SameContent(AppsContents(one), AppsContents(two))
      ensures firstWalk == secondWalk ==> AppsContents(one) == AppsContents(two)
    {
      hide SeparateApps, ValidApps, AppsObjects, AppsContents, GroupMaps, Flat, StoreOf, AllVisits, InStore;
      hide Walk, RenderAll, SameContent;
      one, firstWalk := CreateRenderingData();
      ghost var first, objects, maps := AppsContents(one), AppsObjects(one), GroupMaps(one);
      assert allocated(objects) && allocated(maps);
      label L:
      two, secondWalk := CreateRenderingData();
      assert fresh@L(AppsObjects(two)) && AppsObjects(one) == objects && AppsContents(one) == first;
      OrderDoesNotMatter(Contents(), firstWalk, secondWalk);
    }
  }

  lemma ManagerIsNoApp(manager: DataManager, apps: map<string, HeapApp>)
    ensures manager !in GroupMaps(apps) + AppsObjects(apps)
  {
  }

  lemma ManagerIsNoObject(manager: DataManager, nss: HeapStore)
    ensures manager !in StoreObjects(nss)
  {
  }

  lemma KeyIsNoObject(app: HeapApp, key: string)
    ensures var other := app.(routingTagKey := key);
      && other.Objects() == app.Objects()
      && (app.Valid() <==> other.Valid()) && (app.Own() <==> other.Own())
      && (app.Valid() ==> other.Contents() == app.Contents().(routingTagKey := key))
  {
  }
}
