/** The reconcile protocol with the gateway and its proxy behind it: what the proxy serves once
    nothing is left to do, whatever happened before. */
module GatewayRuns {
  import opened StableNames
  import opened HaproxyRuntime
  import opened HaproxyFleet
  import opened Rendering
  import opened ReloadPath
  import Protocol = ReconcileProtocol

  // ---- Renders of one store, whatever the walk ----

  /** The same hosts for the same groups, under the same backend names. */
  ghost predicate SameGroups(cfg: NameConfig, apps: map<string, App>, apps': map<string, App>) {
    && SameContent(apps, apps')
    && forall id :: id in apps && id in apps' ==>
      && apps[id].vhost == apps'[id].vhost
      && (apps[id].vhost != "" ==> forall g :: GroupBackend(cfg, apps[id], g) == GroupBackend(cfg, apps'[id], g))
  }

  lemma WalksGiveSameGroups(cfg: NameConfig, store: Store, visits: seq<Visit>, visits': seq<Visit>)
    requires TagsMatch(cfg, store) && Walk(store, visits) && Walk(store, visits')
    ensures SameGroups(cfg, RenderOf(store, visits), RenderOf(store, visits'))
  {
    hide RenderAll, Walk, SameContent;
    OrderDoesNotMatter(store, visits, visits');
    WalkStaysInStore(store, visits);
    WalkStaysInStore(store, visits');
    var apps, apps' := RenderOf(store, visits), RenderOf(store, visits');
    forall id | id in apps && id in apps'
      ensures apps[id].vhost == apps'[id].vhost
      ensures apps[id].vhost != "" ==> forall g :: GroupBackend(cfg, apps[id], g) == GroupBackend(cfg, apps'[id], g)
    {
      var v := FirstVisitNames(store, visits, id);
      var w := FirstVisitNames(store, visits', id);
      assert NamedAlike(cfg, AppOf(store, v), AppOf(store, w));
    }
  }

  lemma SameHostsInGroup(a: HostGroup, b: HostGroup)
    requires multiset(a.hosts) == multiset(b.hosts)
    ensures forall h :: h in a.hosts <==> h in b.hosts
    ensures a.hosts == [] <==> b.hosts == []
    ensures IsHTTPHostGroup(a.hosts) <==> IsHTTPHostGroup(b.hosts)
  {
    hide IsHTTP;
    assert forall h :: h in a.hosts <==> h in multiset(a.hosts);
    assert forall h :: h in b.hosts <==> h in multiset(b.hosts);
    assert a.hosts == [] <==> multiset(a.hosts) == multiset{};
    assert forall i :: 0 <= i < |a.hosts| ==> a.hosts[i] in b.hosts;
    assert forall i :: 0 <= i < |b.hosts| ==> b.hosts[i] in a.hosts;
  }

  lemma SameGroupGivesSame(cfg: NameConfig, apps: map<string, App>, apps': map<string, App>, key: GroupKey, b: string,
      h: Host)
    requires SameGroups(cfg, apps, apps')
    ensures FeedsHost(cfg, apps, key, b, h) ==> FeedsHost(cfg, apps', key, b, h)
    ensures GivesHost(cfg, apps, key, b, h) ==> GivesHost(cfg, apps', key, b, h)
  {
    hide IsHTTP, IsHTTPHostGroup, GroupBackend;
    if key.0 in apps && key.1 in apps[key.0].groups {
      SameHostsInGroup(apps[key.0].groups[key.1], apps'[key.0].groups[key.1]);
    }
  }

  lemma SameWants(cfg: NameConfig, apps: map<string, App>, apps': map<string, App>, b: string, h: Host)
    requires SameGroups(cfg, apps, apps') && SameGroups(cfg, apps', apps)
    ensures Wants(cfg, apps, b, h) <==> Wants(cfg, apps', b, h)
    ensures Shows(cfg, apps, b, h) <==> Shows(cfg, apps', b, h)
  {
    hide FeedsHost, GivesHost, SameGroups;
    forall key
      ensures FeedsHost(cfg, apps, key, b, h) <==> FeedsHost(cfg, apps', key, b, h)
      ensures GivesHost(cfg, apps, key, b, h) <==> GivesHost(cfg, apps', key, b, h)
    {
      SameGroupGivesSame(cfg, apps, apps', key, b, h);
      SameGroupGivesSame(cfg, apps', apps, key, b, h);
    }
  }

  /** The data give the proxy no trouble: clear names, and addresses that it takes. */
  ghost predicate ClearData(cfg: NameConfig, resolve: string -> string, accepts: string -> bool,
      apps: map<string, App>) {
    NamesAreClear(cfg, apps) && ReachableData(cfg, resolve, accepts, apps)
  }

  /** Serving one render of a store is serving each of them. */
  lemma {:induction false} ServedInAnyWalk(cfg: NameConfig, resolve: string -> string, accepts: string -> bool,
      store: Store, visits: seq<Visit>, visits': seq<Visit>, backends: map<string, Table>)
    requires TagsMatch(cfg, store) && Walk(store, visits) && Walk(store, visits')
    ensures AllServed(cfg, resolve, RenderOf(store, visits), backends)
       <==> AllServed(cfg, resolve, RenderOf(store, visits'), backends)
    ensures ClearData(cfg, resolve, accepts, RenderOf(store, visits))
       <==> ClearData(cfg, resolve, accepts, RenderOf(store, visits'))
  {
    hide RenderOf, Walk, TagsMatch, SameGroups, Wants, Shows, Serves, NoClash, Reachable;
    var apps, apps' := RenderOf(store, visits), RenderOf(store, visits');
    WalksGiveSameGroups(cfg, store, visits, visits');
    WalksGiveSameGroups(cfg, store, visits', visits);
    forall b, h ensures Wants(cfg, apps, b, h) <==> Wants(cfg, apps', b, h)
                ensures Shows(cfg, apps, b, h) <==> Shows(cfg, apps', b, h)
    {
      SameWants(cfg, apps, apps', b, h);
    }
    assert forall b, hosts :: ListsWanted(cfg, apps, b, hosts) <==> ListsWanted(cfg, apps', b, hosts);
    assert forall b, hosts :: ListsShown(cfg, apps, b, hosts) <==> ListsShown(cfg, apps', b, hosts);
  }

  // ---- The machine and the gateway together ----

  /** The store behind the machine's tables, whose numbers stand for contents. */
  function StoreOf(content: (string, int) -> Namespace, tables: Protocol.Apps): Store {
    map ns | ns in tables :: content(ns, tables[ns])
  }

  /** Some enqueue attempt was made after the first n steps. */
  ghost predicate AttemptSince(events: seq<Protocol.Event>, n: nat) {
    exists k :: n <= k < |events| && Protocol.IsAttempt(events[k])
  }

  /** Steps that are not the end of a reload leave the last good one alone and drop no trigger in hand. */
  lemma OtherStep(s: Protocol.State, e: Protocol.Event)
    requires Protocol.Step(s, e).Some? && !e.WorkerEnds?
    ensures var s' := Protocol.Step(s, e).value; s'.lastOk == s.lastOk && (s.pending ==> s'.pending)
  {
    hide Protocol.RoundEffect;
  }

  lemma ReloadEnd(s: Protocol.State, ok: bool)
    requires Protocol.Inv(s) && s.worker.Reloading?
    ensures var run := Protocol.Step(s, Protocol.WorkerEnds(ok));
      && run.Some?
      && (if ok then run.value.lastOk == Protocol.Completed(s.worker.startedAt, s.worker.read)
          else run.value.lastOk == s.lastOk && run.value.pending)
  {
  }

  lemma RunGrows(apps: Protocol.Apps, events: seq<Protocol.Event>, e: Protocol.Event)
    requires Protocol.Run(apps, events).Some?
    ensures Protocol.Run(apps, events + [e]) == Protocol.Step(Protocol.Run(apps, events).value, e)
  {
    hide Protocol.Step;
    assert (events + [e])[..|events|] == events;
  }

  /** Any run of the machine in which each end of a reload is that of the gateway's reload(), and
      in which the proxy may restart at any time. */
  class System {
    const gateway: Gateway
    const content: (string, int) -> Namespace
    const initial: Protocol.Apps
    /** The machine's steps so far, and how many of them the proxy's last restart has seen. */
    ghost var events: seq<Protocol.Event>
    ghost var restartedAt: nat
    /** The walk of the last good reload, and whether one has failed since. */
    ghost var walk: seq<Visit>
    ghost var failedSince: bool

    constructor (gateway: Gateway, content: (string, int) -> Namespace, initial: Protocol.Apps)
      requires gateway.Valid() && gateway.runtimeApiEnabled && gateway.manager.client.reliable
      ensures Valid() && events == [] && restartedAt == 0
      ensures this.gateway == gateway && this.content == content && this.initial == initial
    {
      this.gateway, this.content, this.initial := gateway, content, initial;
      events, restartedAt, walk, failedSince := [], 0, [], false;
    }

    ghost function Now(): Protocol.State
      requires Protocol.Run(initial, events).Some?
      reads this
    {
      Protocol.Run(initial, events).value
    }

    /** The gateway's proxy serves the hosts wanted by a render of the tables, if the data are clear. */
    ghost predicate ServesWalk(tables: Protocol.Apps, visits: seq<Visit>)
      reads gateway, gateway.manager.client
    {
      var store := StoreOf(content, tables);
      Walk(store, visits) && (gateway.Clear(RenderOf(store, visits)) ==>
        AllServed(gateway.manager.cfg, gateway.manager.resolve, RenderOf(store, visits), gateway.Running()))
    }

    ghost predicate Valid()
      reads this, gateway, gateway.manager.client
    {
      && gateway.Valid() && gateway.runtimeApiEnabled && gateway.manager.client.reliable
      && Protocol.Run(initial, events).Some? && restartedAt <= |events|
      && (failedSince ==> Now().pending)
      && (Now().lastOk.startedAt > restartedAt && !failedSince ==> ServesWalk(Now().lastOk.apps, walk))
    }

    /** Any step of the machine but the end of a reload. */
    ghost method Does(e: Protocol.Event)
      requires Valid() && Protocol.Step(Now(), e).Some? && !e.WorkerEnds?
      modifies this
      ensures Valid() && events == old(events) + [e] && restartedAt == old(restartedAt)
    {
      hide Protocol.Run, Protocol.Step;
      OtherStep(Now(), e);
      RunGrows(initial, events, e);
      events := events + [e];
    }

    /** The proxy restarts, with its config file. */
    method Restarts()
      requires Valid()
      modifies this, gateway.manager.client`backends
      ensures Valid() && events == old(events) && restartedAt == |events|
    {
      hide Protocol.Run;
      Protocol.RunKeepsInv(initial, events);
      gateway.RestartProxy();
      restartedAt := |events|;
    }

    /** The worker's reload() comes to its end. The data are those merged from the store's tables as
        they were when it started. */
    method EndsReload(apps: map<string, App>, ghost visits: seq<Visit>)
      returns (ok: bool)
      requires Valid() && Now().worker.Reloading?
      requires Walk(StoreOf(content, Now().worker.read), visits) &&
        apps == RenderOf(StoreOf(content, Now().worker.read), visits)
      modifies this, gateway, gateway.manager.client
      ensures Valid() && events == old(events) + [Protocol.WorkerEnds(ok)] && restartedAt == old(restartedAt)
    {
      hide Protocol.Run, Protocol.Step, RenderOf, Walk, AllServed, Gateway.Clear;
      Protocol.RunKeepsInv(initial, events);
      ghost var s := Now();
      var vhosts: set<string>, vhostsLater: set<string> := *, *;
      ghost var es, load;
      ok, es, load := gateway.Reload(apps, vhosts, vhostsLater);
      ReloadEnd(s, ok);
      RunGrows(initial, events, Protocol.WorkerEnds(ok));
      events := events + [Protocol.WorkerEnds(ok)];
      failedSince := !ok;
      if ok {
        walk := visits;
      }
    }

    /** When nothing is owed, queued or held, no restore went unread, and something was enqueued
        since the proxy last restarted, the proxy serves what the store's tables ask for now. */
    lemma {:induction false} CaughtUp()
      requires Valid() && AttemptSince(events, restartedAt)
      requires !Protocol.Owes(Now()) && !Protocol.Triggered(Now()) && !Protocol.RestoredSilently(events)
      ensures ServesWalk(Now().apps, walk)
      ensures TagsMatch(gateway.manager.cfg, StoreOf(content, Now().apps)) ==>
        forall visits :: Walk(StoreOf(content, Now().apps), visits) ==> ServesWalk(Now().apps, visits)
    {
      hide Protocol.Run, Protocol.Owes, Protocol.RestoredSilently, RenderOf, Walk, AllServed, TagsMatch;
      var k :| restartedAt <= k < |events| && Protocol.IsAttempt(events[k]);
      Protocol.RunKeepsInv(initial, events);
      Protocol.AttemptIsRecorded(initial, events, k);
      Protocol.LagImpliesDebt(initial, events);
      var store := StoreOf(content, Now().apps);
      if TagsMatch(gateway.manager.cfg, store) {
        forall visits | Walk(store, visits) ensures ServesWalk(Now().apps, visits) {
          ServedInAnyWalk(gateway.manager.cfg, gateway.manager.resolve, gateway.manager.client.accepts, store, walk,
            visits, gateway.Running());
        }
      }
    }
  }
}
