/** Bringing one HAProxy backend to the desired servers over the runtime API, call by call. */
module HaproxyRuntime {
  import opened GoStrings
  import opened Endpoints
  import opened StableNames
  import opened ServerState

  // ---- HAProxy, as the runtime API shows it ----

  type Table = map<string, RuntimeServer>

  datatype Command =
    | Get(name: string)
    | Add(name: string, endpoint: string)
    | SetAddr(name: string, addr: string, port: int)
    | SetHealthUp(name: string)
    | SetReady(name: string)
    | SetDrain(name: string)
    | SetMaint(name: string)
    | Delete(name: string)

  predicate Breaks(c: Command) {
    c.SetDrain? || c.SetMaint? || c.Delete?
  }

  /** When HAProxy accepts a command: a server is added once and deleted only from maintenance. */
  predicate Legal(c: Command, t: Table) {
    match c
    case Add(name, endpoint) =>
      name !in t && ReadEndpoint(endpoint).Some? && ParseInt(ReadEndpoint(endpoint).value.1).Some?
    case Delete(name) => name in t && t[name].adminState == "maint"
    case _ => c.name in t
  }

  /** What it then does. A new server starts in maintenance; leaving maintenance brings it up. */
  function Effect(c: Command, t: Table): Table
    requires Legal(c, t)
  {
    match c
    case Get(_) => t
    case Add(name, endpoint) =>
      var (addr, port) := ReadEndpoint(endpoint).value;
      t[name := RuntimeServer(name, addr, ParseInt(port), "maint", "down")]
    case SetAddr(name, addr, port) => t[name := t[name].(address := addr, port := Some(port))]
    case SetHealthUp(name) =>
      if t[name].adminState == "maint" then t else t[name := t[name].(operationalState := "up")]
    case SetReady(name) =>
      t[name := t[name].(adminState := "ready",
        operationalState := if t[name].adminState == "maint" then "up" else t[name].operationalState)]
    case SetDrain(name) => t[name := t[name].(adminState := "drain")]
    case SetMaint(name) => t[name := t[name].(adminState := "maint", operationalState := "down")]
    case Delete(name) => t - {name}
  }

  /** The assumptions, command by command and field by field. */
  lemma AssumedOfHAProxy(t: Table, name: string, addr: string, port: int)
    requires PlainAddress(addr) && -0x8000_0000 <= port < 0x8000_0000
    ensures var add := Add(name, FormatRuntimeServerEndpoint(addr, port));
      && (Legal(add, t) <==> name !in t)
      && (name !in t ==> Effect(add, t) == t[name := RuntimeServer(name, addr, Some(port), "maint", "down")])
    ensures Legal(Delete(name), t) <==> name in t && t[name].adminState == "maint"
    ensures forall c ::
      c in {SetAddr(name, addr, port), SetHealthUp(name), SetReady(name), SetDrain(name), SetMaint(name), Get(name)} ==>
      (Legal(c, t) <==> name in t)
    ensures name in t ==>
      var s := t[name];
      && Effect(SetAddr(name, addr, port), t)[name]
        == RuntimeServer(s.name, addr, Some(port), s.adminState, s.operationalState)
      && Effect(SetHealthUp(name), t)[name]
         == RuntimeServer(s.name, s.address, s.port, s.adminState,
           if s.adminState == "maint" then s.operationalState else "up")
      && Effect(SetReady(name), t)[name]
         == RuntimeServer(s.name, s.address, s.port, "ready",
           if s.adminState == "maint" then "up" else s.operationalState)
      && Effect(SetDrain(name), t)[name] == RuntimeServer(s.name, s.address, s.port, "drain", s.operationalState)
      && Effect(SetMaint(name), t)[name] == RuntimeServer(s.name, s.address, s.port, "maint", "down")
      && Effect(Get(name), t) == t
  {
    hide ReadEndpoint, ParseInt, Itoa, FormatRuntimeServerEndpoint, PlainAddress;
    RuntimeEndpointRoundTripIffPlain(addr, port);
    ParseIntItoa(port);
  }

  /** A call, its answer and the backend's servers right after it. */
  datatype Called = Called(backend: string, command: Command, ok: bool, after: Table)

  function TableOf(backends: map<string, Table>, b: string): Table {
    if b in backends then backends[b] else map[]
  }

  /** Rows carry the names that they are filed under. */
  predicate WellNamed(backends: map<string, Table>) {
    forall b, n :: b in backends && n in backends[b] ==> backends[b][n].name == n
  }

  lemma EffectKeepsNames(backends: map<string, Table>, b: string, c: Command)
    requires WellNamed(backends) && b in backends && Legal(c, backends[b])
    ensures WellNamed(backends[b := Effect(c, backends[b])])
  {
    hide ReadEndpoint, ParseInt;
  }

  /** The proxy behind its control socket. A call may fail before or after taking effect; a
      reliable proxy fails only commands that are not legal or name an address it refuses, such as
      a name that has not been resolved. */
  class Proxy {
    var backends: map<string, Table>
    ghost var trace: seq<Called>
    const reliable: bool
    const accepts: string -> bool

    constructor (backends: map<string, Table>, reliable: bool, accepts: string -> bool)
      requires WellNamed(backends)
      ensures Valid()
      ensures this.backends == backends && this.reliable == reliable && this.accepts == accepts && trace == []
    {
      this.backends, this.reliable, this.accepts, this.trace := backends, reliable, accepts, [];
    }

    predicate Admits(c: Command) {
      match c
      case Add(_, endpoint) => ReadEndpoint(endpoint).Some? ==> accepts(ReadEndpoint(endpoint).value.0)
      case SetAddr(_, addr, _) => accepts(addr)
      case _ => true
    }

    /** The address is accepted as it is and as the "add server" text carries it. */
    predicate Takes(host: Host) {
      Admits(Add("", FormatRuntimeServerEndpoint(host.host, host.port))) && Admits(SetAddr("", host.host, host.port))
    }

    function Servers(b: string): Table
      reads this
    {
      TableOf(backends, b)
    }

    ghost predicate Valid()
      reads this
    {
      WellNamed(backends)
    }

    method Execute(b: string, c: Command) returns (ok: bool)
      requires Valid()
      modifies this
      ensures Valid()
      ensures trace == old(trace) + [Called(b, c, ok, Servers(b))]
      ensures backends - {b} == old(backends - {b}) && (b in backends <==> b in old(backends))
      ensures ok ==> Legal(c, old(Servers(b))) && Admits(c) && Servers(b) == Effect(c, old(Servers(b)))
      ensures !ok ==>
        Servers(b) == old(Servers(b)) ||
          (Legal(c, old(Servers(b))) && Admits(c) && Servers(b) == Effect(c, old(Servers(b))))
      ensures reliable && b in backends && Legal(c, old(Servers(b))) && Admits(c) ==> ok
    {
      hide WellNamed, ReadEndpoint, ParseInt;
      ok := false;
      if b in backends && Legal(c, backends[b]) && Admits(c) {
        EffectKeepsNames(backends, b, c);
        var before, after := backends[b], Effect(c, backends[b]);
        if reliable {
          ok := true;
          backends := backends[b := after];
        } else {
          ok := *;
          var takesEffect := *;
          if ok || takesEffect {
            backends := backends[b := after];
          }
        }
        assert Servers(b) == before || Servers(b) == after;
      }
      trace := trace + [Called(b, c, ok, Servers(b))];
    }
  }

  // ---- Comparing desired and current servers ----

  predicate IsHTTP(host: Host) {
    host.portType == "http" || host.portType == "https"
  }

  /** The state half of compareServerConfigs: ready, and up as far as the gateway cares. */
  predicate Healthy(s: RuntimeServer) {
    s.adminState == "ready" && (s.operationalState == "up" || s.operationalState == "maint")
  }

  /** compareServerConfigs; the desired address is already resolved. */
  predicate Matches(desired: Host, current: RuntimeServer) {
    current.port == Some(desired.port) && current.address == desired.host && Healthy(current)
  }

  ghost predicate Identical(desired: map<string, Host>, current: Table) {
    desired.Keys == current.Keys && forall n :: n in desired ==> Matches(desired[n], current[n])
  }

  /** areServerMapsIdentical: equal sizes and one inclusion are enough. */
  method AreServerMapsIdentical(desired: map<string, Host>, current: Table) returns (r: bool)
    ensures r <==> Identical(desired, current)
  {
    assert |desired| == |desired.Keys| && |current| == |current.Keys|;
    if |desired| != |current| {
      return false;
    }
    var todo := desired.Keys;
    while todo != {}
      invariant todo <= desired.Keys
      invariant forall n :: n in desired && n !in todo ==> n in current && Matches(desired[n], current[n])
      decreases |todo|
    {
      var n :| n in todo;
      if n !in current || !Matches(desired[n], current[n]) {
        return false;
      }
      todo := todo - {n};
    }
    SubsetOfSameSize(desired.Keys, current.Keys);
    return true;
  }

  lemma {:induction false} SubsetOfSameSize(a: set<string>, b: set<string>)
    requires a <= b && |a| == |b|
    ensures a == b
  {
    if a != b {
      var x :| x in b && x !in a;
      SubsetSize(a, b - {x});
    }
  }

  lemma {:induction false} SubsetSize(a: set<string>, b: set<string>)
    requires a <= b
    ensures |a| <= |b|
    decreases |a|
  {
    if a != {} {
      var x :| x in a;
      SubsetSize(a - {x}, b - {x});
    }
  }

  // ---- Properties of runs of calls ----

  function ReadyNames(t: Table): set<string> {
    set n | n in t && Healthy(t[n])
  }

  /** A backend's table after calls on it: that of the last one. */
  ghost function After(es: seq<Called>, t: Table): Table {
    if es == [] then t else es[|es| - 1].after
  }

  lemma NothingAfter(t: Table)
    ensures After([], t) == t
  {
  }

  lemma AfterOne(c: Called, t: Table)
    ensures After([c], t) == c.after
  {
  }

  lemma AfterBoth(es: seq<Called>, fs: seq<Called>, t: Table)
    ensures After(es + fs, t) == After(fs, After(es, t))
  {
  }

  ghost predicate AllOk(es: seq<Called>) {
    forall i :: 0 <= i < |es| ==> es[i].ok
  }

  /** No call breaks a server, and the given servers are ready after each of them. */
  ghost predicate OnlyMakes(es: seq<Called>, b: string, ready: set<string>) {
    forall i :: 0 <= i < |es| ==> es[i].backend == b && !Breaks(es[i].command) && ready <= ReadyNames(es[i].after)
  }

  /** Servers that a pass leaves alone: after every call they are as before. */
  ghost predicate Spares(es: seq<Called>, b: string, kept: Table) {
    forall i :: 0 <= i < |es| ==> es[i].backend == b && forall n :: n in kept ==>
      n in es[i].after && es[i].after[n] == kept[n]
  }

  /** The same servers but for one. */
  ghost predicate SameBut(t: Table, t': Table, name: string) {
    t' - {name} == t - {name}
  }

  lemma MakesKeepReady(c: Command, t: Table)
    requires Legal(c, t) && !Breaks(c)
    ensures ReadyNames(t) <= ReadyNames(Effect(c, t))
    ensures SameBut(t, Effect(c, t), c.name)
    ensures t.Keys <= Effect(c, t).Keys <= if c.Add? then t.Keys + {c.name} else t.Keys
  {
    hide ReadEndpoint, ParseInt;
  }

  lemma OnlyMakesConcat(es: seq<Called>, fs: seq<Called>, b: string, ready: set<string>, ready': set<string>)
    requires ready <= ready' && OnlyMakes(es, b, ready) && OnlyMakes(fs, b, ready')
    ensures OnlyMakes(es + fs, b, ready)
  {
    hide Breaks, ReadyNames;
  }

  lemma AllOkConcat(es: seq<Called>, fs: seq<Called>)
    ensures AllOk(es + fs) <==> AllOk(es) && AllOk(fs)
  {
    assert forall i :: 0 <= i < |es| ==> es[i] == (es + fs)[i];
    assert forall i :: 0 <= i < |fs| ==> fs[i] == (es + fs)[|es| + i];
  }

  /** Address, health and state together settle a server, whatever it was before. */
  lemma UpdateSettles(t: Table, name: string, host: Host)
    requires name in t
    ensures var t1 := Effect(SetAddr(name, host.host, host.port), t);
      name in t1 && var t2 := Effect(SetHealthUp(name), t1);
      name in t2 && var t3 := Effect(SetReady(name), t2);
      name in t3 && Matches(host, t3[name])
  {
  }

  const ZERO_SERVER := RuntimeServer("", "", None, "", "")

  /** The desired servers that a pass can provide: HTTP ones, and those already there. */
  function Targets(desired: map<string, Host>, current: Table): set<string> {
    set n | n in desired && (IsHTTP(desired[n]) || n in current)
  }

  lemma TargetsAre(desired: map<string, Host>, current: Table, name: string)
    ensures name in Targets(desired, current) <==> name in desired && (IsHTTP(desired[name]) || name in current)
  {
  }

  lemma Assoc(a: seq<Called>, b: seq<Called>, c: seq<Called>)
    ensures a + b + c == a + (b + c)
  {
  }

  /** Addresses that the "add server" text carries over unchanged. */
  ghost predicate PlainHosts(desired: map<string, Host>) {
    forall n :: n in desired ==> PlainAddress(desired[n].host)
  }

  ghost predicate TakesAll(client: Proxy, desired: map<string, Host>) {
    forall n :: n in desired ==> client.Takes(desired[n])
  }

  ghost predicate Settled(names: set<string>, desired: map<string, Host>, t: Table) {
    forall n :: n in names && n in desired ==> n in t && Matches(desired[n], t[n])
  }

  /** The server answers at this address and port, is ready, and is up as far as HAProxy checks it. */
  ghost predicate Configured(s: RuntimeServer, addr: string, port: int) {
    && s.address == addr && s.port == Some(port)
    && s.adminState == "ready" && s.operationalState in {"up", "maint"}
  }

  /** The table has the wanted servers, all configured, and no others. */
  ghost predicate AllConfigured(desired: map<string, Host>, t: Table) {
    t.Keys == desired.Keys && forall n :: n in desired ==> Configured(t[n], desired[n].host, desired[n].port)
  }

  lemma ConfiguredIsIdentical(desired: map<string, Host>, t: Table)
    ensures AllConfigured(desired, t) <==> Identical(desired, t)
  {
    if Identical(desired, t) {
      forall n | n in desired ensures Configured(t[n], desired[n].host, desired[n].port) {
        assert Matches(desired[n], t[n]);
      }
    }
  }

  /** Every HTTP server that is wanted, and every other one that was there, is configured. */
  ghost predicate AsConfigured(desired: map<string, Host>, before: Table, after: Table) {
    forall n :: n in desired && (desired[n].portType == "http" || desired[n].portType == "https" || n in before) ==>
      n in after && Configured(after[n], desired[n].host, desired[n].port)
  }

  /** No server is there but these. */
  ghost predicate OnlyAsked(desired: map<string, Host>, before: Table, after: Table) {
    forall n :: n in after <==>
      n in desired && (desired[n].portType == "http" || desired[n].portType == "https" || n in before)
  }

  lemma TargetsAreAsked(desired: map<string, Host>, before: Table, after: Table)
    requires after.Keys == Targets(desired, before)
    ensures OnlyAsked(desired, before, after)
  {
    forall n ensures n in after <==>
      n in desired && (desired[n].portType == "http" || desired[n].portType == "https" || n in before)
    {
      assert n in after <==> n in Targets(desired, before);
    }
  }

  lemma SettledIsConfigured(desired: map<string, Host>, before: Table, after: Table)
    requires Settled(Targets(desired, before), desired, after)
    ensures AsConfigured(desired, before, after)
  {
    forall n | n in desired && (desired[n].portType == "http" || desired[n].portType == "https" || n in before)
      ensures n in after && Configured(after[n], desired[n].host, desired[n].port)
    {
      assert n in Targets(desired, before);
    }
  }

  // ---- Which calls are made, and what counts as success ----

  /** Address, health and state, whatever the calls before say; all three must succeed. */
  ghost predicate Updates(es: seq<Called>, name: string, host: Host, ok: bool) {
    && |es| == 3 && es[0].command == SetAddr(name, host.host, host.port)
    && es[1].command == SetHealthUp(name) && es[2].command == SetReady(name)
    && (ok <==> es[0].ok && es[1].ok && es[2].ok)
  }

  /** One more addition and a look, of which one must succeed, unless the time is up before. */
  ghost predicate RetriesAdd(es: seq<Called>, add: Command, ok: bool) {
    || (es == [] && !ok)
    || (|es| == 2 && es[0].command == add && es[1].command == Get(add.name) && (ok <==> es[0].ok || es[1].ok))
  }

  /** An addition, and then the state; if it fails, a look, and then an update or a retry. */
  ghost predicate Adds(es: seq<Called>, name: string, host: Host, ok: bool) {
    var add := Add(name, FormatRuntimeServerEndpoint(host.host, host.port));
    && es != [] && es[0].command == add
    && if es[0].ok then |es| == 2 && es[1].command == SetReady(name) && (ok <==> es[1].ok)
       else
         && |es| >= 2 && es[1].command == Get(name)
         && if es[1].ok then Updates(es[2..], name, host, ok) else RetriesAdd(es[2..], add, ok)
  }

  /** Drain, maintenance, a look, and deletions up to the first that succeeds; all but the drain must. */
  ghost predicate Removes(es: seq<Called>, name: string, ok: bool) {
    && |es| >= 4 && es[0].command == SetDrain(name) && es[1].command == SetMaint(name) && es[2].command == Get(name)
    && (forall i :: 3 <= i < |es| ==> es[i].command == Delete(name) && (es[i].ok ==> i == |es| - 1))
    && (ok <==> es[1].ok && es[2].ok && es[|es| - 1].ok)
  }

  /** Three calls that only make, one after the other. */
  lemma UpdateCalls(trace: seq<Called>, c1: Called, c2: Called, c3: Called, b: string, t: Table, name: string,
      host: Host)
    requires c1.command == SetAddr(name, host.host, host.port)
    requires c2.command == SetHealthUp(name) && c3.command == SetReady(name)
    requires ReadyNames(t) <= ReadyNames(c1.after) <= ReadyNames(c2.after)
    requires OnlyMakes([c1], b, ReadyNames(t)) && OnlyMakes([c2], b, ReadyNames(c1.after))
    requires OnlyMakes([c3], b, ReadyNames(c2.after))
    ensures var es, ok := [c1, c2, c3], c1.ok && c2.ok && c3.ok;
      && trace + [c1] + [c2] + [c3] == trace + es && After(es, t) == c3.after
      && Updates(es, name, host, ok) && OnlyMakes(es, b, ReadyNames(t)) && (AllOk(es) <==> ok)
  {
    hide ReadyNames, Breaks;
    var es := [c1, c2, c3];
    assert trace + [c1] + [c2] + [c3] == trace + es;
    assert [c1][0] == c1 && [c2][0] == c2 && [c3][0] == c3;
    assert es[0] == c1 && es[1] == c2 && es[2] == c3;
  }

  lemma AddsAtOnce(c1: Called, c2: Called, name: string, host: Host)
    requires c1.command == Add(name, FormatRuntimeServerEndpoint(host.host, host.port)) && c1.ok
    requires c2.command == SetReady(name)
    ensures Adds([c1] + [c2], name, host, c2.ok)
  {
    hide FormatRuntimeServerEndpoint;
  }

  lemma AddsLater(c1: Called, c2: Called, rest: seq<Called>, name: string, host: Host, ok: bool)
    requires c1.command == Add(name, FormatRuntimeServerEndpoint(host.host, host.port)) && !c1.ok
    requires c2.command == Get(name)
    requires if c2.ok then Updates(rest, name, host, ok) else RetriesAdd(rest, c1.command, ok)
    ensures Adds([c1] + [c2] + rest, name, host, ok)
  {
    hide FormatRuntimeServerEndpoint, Updates, RetriesAdd;
    assert ([c1] + [c2] + rest)[2..] == rest;
  }

  /** The calls of a removal as far as it has come. */
  ghost predicate Removing(es: seq<Called>, name: string, disabled: bool, seen: bool, deleted: bool) {
    && |es| >= 4 && es[0].command == SetDrain(name) && es[1].command == SetMaint(name) && es[2].command == Get(name)
    && (forall i :: 3 <= i < |es| ==> es[i].command == Delete(name) && (es[i].ok ==> i == |es| - 1))
    && disabled == es[1].ok && seen == es[2].ok && deleted == es[|es| - 1].ok
  }

  lemma TakenCommands(client: Proxy, host: Host, name: string)
    ensures client.Takes(host) ==>
      && client.Admits(SetAddr(name, host.host, host.port))
      && client.Admits(Add(name, FormatRuntimeServerEndpoint(host.host, host.port)))
    ensures client.Admits(SetHealthUp(name)) && client.Admits(SetReady(name)) && client.Admits(Get(name))
  {
    hide ReadEndpoint, FormatRuntimeServerEndpoint;
  }

  /** The four calls of a removal, one after the other. */
  lemma RemovalCalls(trace: seq<Called>, c1: Called, c2: Called, c3: Called, c4: Called, b: string, kept: Table,
      t: Table,
      name: string)
    requires c1.command == SetDrain(name) && c2.command == SetMaint(name) && c3.command == Get(name)
    requires c4.command == Delete(name)
    requires Spares([c1], b, kept) && Spares([c2], b, kept) && Spares([c3], b, kept) && Spares([c4], b, kept)
    ensures var es := [c1, c2, c3, c4];
      && trace + [c1] + [c2] + [c3] + [c4] == trace + es && After(es, t) == c4.after
      && Removing(es, name, c2.ok, c3.ok, c4.ok) && Spares(es, b, kept)
      && (AllOk(es) <==> c1.ok && c2.ok && c3.ok && c4.ok)
  {
    var es := [c1, c2, c3, c4];
    assert [c1][0] == c1 && [c2][0] == c2 && [c3][0] == c3 && [c4][0] == c4;
    assert es[0] == c1 && es[1] == c2 && es[2] == c3 && es[3] == c4;
  }

  lemma RemovesMore(es: seq<Called>, name: string, disabled: bool, seen: bool, c: Called)
    requires Removing(es, name, disabled, seen, false) && c.command == Delete(name)
    ensures Removing(es + [c], name, disabled, seen, c.ok)
  {
  }

  lemma RemovesEnd(es: seq<Called>, name: string, disabled: bool, seen: bool, deleted: bool)
    requires Removing(es, name, disabled, seen, deleted)
    ensures Removes(es, name, disabled && seen && deleted)
  {
  }

  /** The part of a pass that works on one server, and how it went. */
  datatype Part = Part(name: string, calls: seq<Called>, ok: bool)

  /** A wanted server is added or, if it is not as configured, updated; any other is removed. */
  ghost predicate Works(p: Part, desired: map<string, Host>, before: Table) {
    if p.name !in desired then p.name in before && Removes(p.calls, p.name, p.ok)
    else
      var host := desired[p.name];
      if p.name in before then
        if Configured(before[p.name], host.host, host.port) then p.calls == [] && p.ok
        else Updates(p.calls, p.name, host, p.ok)
      else if host.portType == "http" || host.portType == "https" then Adds(p.calls, p.name, host, p.ok)
      else p.calls == [] && p.ok
  }

  ghost function CallsOf(parts: seq<Part>): seq<Called> {
    if parts == [] then [] else CallsOf(parts[..|parts| - 1]) + parts[|parts| - 1].calls
  }

  lemma CallsGrow(parts: seq<Part>, p: Part)
    ensures CallsOf(parts + [p]) == CallsOf(parts) + p.calls
    ensures CallsOf([]) == []
  {
    assert (parts + [p])[..|parts|] == parts;
  }

  lemma {:induction false} CallsOfBoth(parts: seq<Part>, more: seq<Part>)
    ensures CallsOf(parts + more) == CallsOf(parts) + CallsOf(more)
  {
    hide CallsOf;
    if more == [] {
      assert parts + more == parts;
      CallsGrow(parts, Part("", [], true));
    } else {
      var n := |more| - 1;
      CallsOfBoth(parts, more[..n]);
      assert parts + more == (parts + more[..n]) + [more[n]] && more == more[..n] + [more[n]];
      CallsGrow(parts + more[..n], more[n]);
      CallsGrow(more[..n], more[n]);
    }
  }

  ghost predicate AllWell(parts: seq<Part>) {
    forall i :: 0 <= i < |parts| ==> parts[i].ok
  }

  /** One part for each of these servers. */
  ghost predicate OneEach(parts: seq<Part>, names: set<string>) {
    && (forall i :: 0 <= i < |parts| ==> parts[i].name in names)
    && (forall i, j :: 0 <= i < j < |parts| ==> parts[i].name != parts[j].name)
    && forall n :: n in names ==> exists i :: 0 <= i < |parts| && parts[i].name == n
  }

  ghost predicate AllWork(parts: seq<Part>, desired: map<string, Host>, before: Table) {
    forall i :: 0 <= i < |parts| ==> Works(parts[i], desired, before)
  }

  /** Parts whose calls are these, one for each of these servers, and whether all went well. */
  ghost predicate WorkOn(parts: seq<Part>, es: seq<Called>, ok: bool, names: set<string>, desired: map<string, Host>,
      before: Table) {
    CallsOf(parts) == es && (ok <==> AllWell(parts)) && OneEach(parts, names) && AllWork(parts, desired, before)
  }

  lemma NoWork(desired: map<string, Host>, before: Table)
    ensures WorkOn([], [], true, {}, desired, before)
  {
  }

  lemma MoreWork(parts: seq<Part>, es: seq<Called>, ok: bool, names: set<string>, desired: map<string, Host>,
      before: Table, p: Part)
    requires WorkOn(parts, es, ok, names, desired, before) && p.name !in names && Works(p, desired, before)
    ensures WorkOn(parts + [p], es + p.calls, ok && p.ok, names + {p.name}, desired, before)
  {
    hide Works;
    CallsGrow(parts, p);
    var all := parts + [p];
    assert all[|parts|] == p && forall i :: 0 <= i < |parts| ==> all[i] == parts[i];
    forall n | n in names + {p.name} ensures exists i :: 0 <= i < |all| && all[i].name == n {
      if n in names {
        var i :| 0 <= i < |parts| && parts[i].name == n;
        assert all[i].name == n;
      } else {
        assert all[|parts|].name == n;
      }
    }
  }

  lemma OneEachOfBoth(p1: seq<Part>, n1: set<string>, p2: seq<Part>, n2: set<string>)
    requires OneEach(p1, n1) && OneEach(p2, n2) && n1 !! n2
    ensures OneEach(p1 + p2, n1 + n2)
  {
    var all := p1 + p2;
    assert forall i :: 0 <= i < |p1| ==> all[i] == p1[i];
    assert forall i :: 0 <= i < |p2| ==> all[|p1| + i] == p2[i];
    forall n | n in n1 + n2 ensures exists i :: 0 <= i < |all| && all[i].name == n {
      if n in n1 {
        var i :| 0 <= i < |p1| && p1[i].name == n;
        assert all[i].name == n;
      } else {
        var i :| 0 <= i < |p2| && p2[i].name == n;
        assert all[|p1| + i].name == n;
      }
    }
  }

  lemma AllOfBoth(p1: seq<Part>, p2: seq<Part>, desired: map<string, Host>, before: Table)
    requires AllWork(p1, desired, before) && AllWork(p2, desired, before)
    ensures AllWork(p1 + p2, desired, before)
    ensures AllWell(p1 + p2) <==> AllWell(p1) && AllWell(p2)
  {
    hide Works;
    var all := p1 + p2;
    assert forall i :: 0 <= i < |p1| ==> p1[i] == all[i];
    assert forall i :: 0 <= i < |p2| ==> p2[i] == all[|p1| + i];
  }

  lemma WorkOnBoth(p1: seq<Part>, e1: seq<Called>, ok1: bool, n1: set<string>, p2: seq<Part>, e2: seq<Called>,
      ok2: bool,
      n2: set<string>, desired: map<string, Host>, before: Table)
    requires WorkOn(p1, e1, ok1, n1, desired, before) && WorkOn(p2, e2, ok2, n2, desired, before) && n1 !! n2
    ensures WorkOn(p1 + p2, e1 + e2, ok1 && ok2, n1 + n2, desired, before)
  {
    hide AllWork, AllWell, OneEach, CallsOf;
    CallsOfBoth(p1, p2);
    OneEachOfBoth(p1, n1, p2, n2);
    AllOfBoth(p1, p2, desired, before);
  }

  lemma MatchesIff(desired: Host, s: RuntimeServer)
    ensures Matches(desired, s) <==> Configured(s, desired.host, desired.port)
  {
  }

  // ---- The reconciliation ----

  class HaproxyManager {
    const client: Proxy
    const cfg: NameConfig
    /** Name resolution; a name that does not resolve stands for itself. */
    const resolve: string -> string

    constructor (client: Proxy, cfg: NameConfig, resolve: string -> string)
      ensures this.client == client && this.cfg == cfg && this.resolve == resolve
    {
      this.client, this.cfg, this.resolve := client, cfg, resolve;
    }

    /** A call that breaks nothing. */
    method Make(b: string, c: Command) returns (ok: bool, ghost es: seq<Called>)
      requires !Breaks(c)
      requires client.Valid()
      modifies client
      ensures client.Valid()
      ensures client.trace == old(client.trace) + es && (AllOk(es) <==> ok)
      ensures es == [Called(b, c, ok, client.Servers(b))]
      ensures client.backends - {b} == old(client.backends - {b}) &&
              (b in client.backends <==> b in old(client.backends))
      ensures ok ==> Legal(c, old(client.Servers(b))) && client.Servers(b) == Effect(c, old(client.Servers(b)))
      ensures SameBut(old(client.Servers(b)), client.Servers(b), c.name)
      ensures old(client.Servers(b)).Keys <= client.Servers(b).Keys <= old(client.Servers(b)).Keys + {c.name}
      ensures !c.Add? ==> client.Servers(b).Keys == old(client.Servers(b)).Keys
      ensures ReadyNames(old(client.Servers(b))) <= ReadyNames(client.Servers(b))
      ensures OnlyMakes(es, b, ReadyNames(old(client.Servers(b))))
      ensures client.reliable && b in client.backends && Legal(c, old(client.Servers(b))) && client.Admits(c) ==> ok
    {
      hide Proxy.Admits;
      ghost var t := client.Servers(b);
      if Legal(c, t) {
        MakesKeepReady(c, t);
      }
      ok := client.Execute(b, c);
      es := [Called(b, c, ok, client.Servers(b))];
      assert es[0].ok == ok;
    }

    /** updateExistingServer: address, health and state, each tried whatever the others say. */
    method UpdateExistingServer(b: string, name: string, host: Host, current: RuntimeServer)
      returns (ok: bool, ghost es: seq<Called>)
      requires client.Valid()
      modifies client
      ensures client.Valid()
      ensures client.trace == old(client.trace) + es
      ensures client.Servers(b) == After(es, old(client.Servers(b)))
      ensures if Configured(current, host.host, host.port) then ok && es == [] else Updates(es, name, host, ok)
      ensures client.backends - {b} == old(client.backends - {b}) &&
              (b in client.backends <==> b in old(client.backends))
      ensures client.Servers(b).Keys == old(client.Servers(b)).Keys
      ensures SameBut(old(client.Servers(b)), client.Servers(b), name)
      ensures ReadyNames(old(client.Servers(b))) <= ReadyNames(client.Servers(b))
      ensures OnlyMakes(es, b, ReadyNames(old(client.Servers(b))))
      ensures Matches(host, current) ==> ok && es == [] && client.Servers(b) == old(client.Servers(b))
      ensures !Matches(host, current) && ok ==> name in client.Servers(b) && Matches(host, client.Servers(b)[name])
      ensures !Matches(host, current) ==> es != []
      ensures AllOk(es) ==> ok
      ensures client.reliable && b in client.backends && name in old(client.Servers(b)) && client.Takes(host) ==>
        AllOk(es)
    {
      es := [];
      MatchesIff(host, current);
      if Matches(host, current) {
        return true, [];
      }
      hide WellNamed, OnlyMakes, AllOk, ReadyNames, Matches, Configured, Effect, Updates, After, Proxy.Takes;
      ghost var t := client.Servers(b);
      TakenCommands(client, host, name);
      if name in t {
        UpdateSettles(t, name, host);
      }
      var addrOk, healthOk, stateOk;
      ghost var e1, e2, e3;
      addrOk, e1 := Make(b, SetAddr(name, host.host, host.port));
      healthOk, e2 := Make(b, SetHealthUp(name));
      stateOk, e3 := Make(b, SetReady(name));
      ok := addrOk && healthOk && stateOk;
      es := [e1[0], e2[0], e3[0]];
      UpdateCalls(old(client.trace), e1[0], e2[0], e3[0], b, t, name, host);
    }

    /** addNewServer. The retry branch neither looks at the state nor sets it. */
    method AddNewServer(b: string, name: string, host: Host)
      returns (ok: bool, ghost es: seq<Called>)
      requires client.Valid()
      modifies client
      ensures client.Valid()
      ensures client.trace == old(client.trace) + es
      ensures client.Servers(b) == After(es, old(client.Servers(b)))
      ensures if host.portType == "http" || host.portType == "https" then Adds(es, name, host, ok) else ok && es == []
      ensures client.backends - {b} == old(client.backends - {b}) &&
              (b in client.backends <==> b in old(client.backends))
      ensures old(client.Servers(b)).Keys <= client.Servers(b).Keys <= old(client.Servers(b)).Keys + {name}
      ensures SameBut(old(client.Servers(b)), client.Servers(b), name)
      ensures ReadyNames(old(client.Servers(b))) <= ReadyNames(client.Servers(b))
      ensures OnlyMakes(es, b, ReadyNames(old(client.Servers(b))))
      ensures !IsHTTP(host) ==> ok && es == [] && client.Servers(b) == old(client.Servers(b))
      ensures IsHTTP(host) && ok ==> name in client.Servers(b)
      ensures IsHTTP(host) ==> es != []
      ensures AllOk(es) ==> ok
      ensures AllOk(es) && IsHTTP(host) && PlainAddress(host.host) ==>
        name in client.Servers(b) && Matches(host, client.Servers(b)[name])
      ensures client.reliable && b in client.backends && name !in old(client.Servers(b)) && client.Takes(host) ==>
        AllOk(es)
    {
      hide WellNamed, OnlyMakes, AllOk, ReadyNames, Matches, PlainAddress, ReadEndpoint, ParseInt;
      hide FormatRuntimeServerEndpoint, Adds, Updates, RetriesAdd, Configured, Proxy.Takes, After;
      TakenCommands(client, host, name);
      NothingAfter(client.Servers(b));
      es := [];
      AllOkOfNothing(b, ReadyNames(client.Servers(b)));
      if !IsHTTP(host) {
        return true, [];
      }
      ghost var t, ready := client.Servers(b), ReadyNames(client.Servers(b));
      var endpoint := FormatRuntimeServerEndpoint(host.host, host.port);
      EndpointIsReadable(host);
      if name !in client.Servers(b) {
        AddSettles(client.Servers(b), name, host);
      }
      hide WellNamed, Effect;
      var added, e1 := Make(b, Add(name, endpoint));
      ghost var ready1 := ReadyNames(client.Servers(b));
      es := e1;
      if added {
        ghost var e2;
        ok, e2 := Make(b, SetReady(name));
        es := es + e2;
        Assoc(old(client.trace), e1, e2);
        AfterOne(e2[0], After(e1, t));
        AddsAtOnce(e1[0], e2[0], name, host);
        AfterBoth(e1, e2, t);
        OnlyMakesConcat(e1, e2, b, ready, ready1);
        AllOkConcat(e1, e2);
        return;
      }
      var found, e2 := Make(b, Get(name));
      ghost var ready2 := ReadyNames(client.Servers(b));
      OnlyMakesConcat(e1, e2, b, ready, ready1);
      AllOkConcat(e1, e2);
      AfterBoth(e1, e2, t);
      AfterOne(e2[0], After(e1, t));
      es := e1 + e2;
      Assoc(old(client.trace), e1, e2);
      if found {
        ghost var e3;
        ok, e3 := UpdateExistingServer(b, name, host, ZERO_SERVER);
        assert !Matches(host, ZERO_SERVER) by { ZeroNeverMatches(host); }
        MatchesIff(host, ZERO_SERVER);
        OnlyMakesConcat(es, e3, b, ready, ready2);
        AllOkConcat(es, e3);
        AfterBoth(es, e3, t);
        AddsLater(e1[0], e2[0], e3, name, host, ok);
        Assoc(old(client.trace), es, e3);
        es := es + e3;
        return;
      }
      ghost var e3;
      ok, e3 := RetryAdd(b, Add(name, endpoint));
      OnlyMakesConcat(es, e3, b, ready, ready2);
      AllOkConcat(es, e3);
      AfterBoth(es, e3, t);
      AddsLater(e1[0], e2[0], e3, name, host, ok);
      Assoc(old(client.trace), es, e3);
      es := es + e3;
    }

    /** The retry after a wait, unless the timeout comes first: being there counts as success. */
    method RetryAdd(b: string, add: Command) returns (ok: bool, ghost es: seq<Called>)
      requires add.Add?
      requires client.Valid()
      modifies client
      ensures client.Valid()
      ensures client.trace == old(client.trace) + es
      ensures client.Servers(b) == After(es, old(client.Servers(b)))
      ensures RetriesAdd(es, add, ok)
      ensures client.backends - {b} == old(client.backends - {b}) &&
              (b in client.backends <==> b in old(client.backends))
      ensures old(client.Servers(b)).Keys <= client.Servers(b).Keys <= old(client.Servers(b)).Keys + {add.name}
      ensures SameBut(old(client.Servers(b)), client.Servers(b), add.name)
      ensures ReadyNames(old(client.Servers(b))) <= ReadyNames(client.Servers(b))
      ensures OnlyMakes(es, b, ReadyNames(old(client.Servers(b))))
      ensures ok ==> add.name in client.Servers(b)
    {
      hide WellNamed, OnlyMakes, AllOk, ReadyNames;
      ghost var t, ready := client.Servers(b), ReadyNames(client.Servers(b));
      AllOkOfNothing(b, ready);
      ok, es := false, [];
      var timedOut := *;
      if !timedOut {
        var addedNow, e1 := Make(b, add);
        ghost var ready1 := ReadyNames(client.Servers(b));
        var foundNow, e2 := Make(b, Get(add.name));
        ok := addedNow || foundNow;
        OnlyMakesConcat(e1, e2, b, ready, ready1);
        AfterBoth(e1, e2, t);
        es := e1 + e2;
      }
    }

    /** addOrUpdateServers for one server. */
    method AddOrUpdateServer(b: string, name: string, host: Host, current: Table)
      returns (ok: bool, ghost es: seq<Called>)
      requires SameAt(client.Servers(b), current, name)
      requires client.Valid()
      modifies client
      ensures client.Valid()
      ensures client.trace == old(client.trace) + es
      ensures client.Servers(b) == After(es, old(client.Servers(b)))
      ensures forall desired: map<string, Host> :: name in desired && desired[name] == host ==>
        Works(Part(name, es, ok), desired, current)
      ensures client.backends - {b} == old(client.backends - {b}) &&
              (b in client.backends <==> b in old(client.backends))
      ensures old(client.Servers(b)).Keys <= client.Servers(b).Keys
      ensures client.Servers(b).Keys <= old(client.Servers(b)).Keys + if IsHTTP(host) then {name} else {}
      ensures SameBut(old(client.Servers(b)), client.Servers(b), name)
      ensures ReadyNames(old(client.Servers(b))) <= ReadyNames(client.Servers(b))
      ensures OnlyMakes(es, b, ReadyNames(old(client.Servers(b))))
      ensures ok && IsHTTP(host) ==> name in client.Servers(b)
      ensures AllOk(es) ==> ok
      ensures AllOk(es) && PlainAddress(host.host) && (IsHTTP(host) || name in current) ==>
        name in client.Servers(b) && Matches(host, client.Servers(b)[name])
      ensures es == [] && (IsHTTP(host) || name in current) ==>
        name in client.Servers(b) && Matches(host, client.Servers(b)[name])
      ensures client.reliable && b in client.backends && client.Takes(host) ==> AllOk(es)
    {
      hide WellNamed, OnlyMakes, ReadyNames, Matches, PlainAddress, IsHTTP, Proxy.Takes;
      if name !in current {
        ok, es := AddNewServer(b, name, host);
      } else {
        ok, es := UpdateExistingServer(b, name, host, current[name]);
      }
    }

    /** addOrUpdateServers: every desired server, in any order. */
    method AddOrUpdateServers(b: string, desired: map<string, Host>, current: Table)
      returns (ok: bool, ghost es: seq<Called>, ghost parts: seq<Part>)
      requires client.Servers(b) == current
      requires client.Valid()
      modifies client
      ensures client.Valid()
      ensures client.trace == old(client.trace) + es
      ensures client.Servers(b) == After(es, old(client.Servers(b)))
      ensures WorkOn(parts, es, ok, desired.Keys, desired, current)
      ensures client.backends - {b} == old(client.backends - {b}) &&
              (b in client.backends <==> b in old(client.backends))
      ensures current.Keys <= client.Servers(b).Keys <= current.Keys + Targets(desired, current)
      ensures forall n :: n !in desired ==> SameAt(client.Servers(b), current, n)
      ensures OnlyMakes(es, b, ReadyNames(current))
      ensures ok ==> Targets(desired, current) <= client.Servers(b).Keys
      ensures AllOk(es) ==> ok
      ensures AllOk(es) && PlainHosts(desired) ==> Settled(Targets(desired, current), desired, client.Servers(b))
      ensures es == [] ==> Settled(Targets(desired, current), desired, client.Servers(b))
      ensures client.reliable && b in client.backends && TakesAll(client, desired) ==> AllOk(es)
    {
      hide WellNamed, OnlyMakes, ReadyNames, Matches, PlainAddress, IsHTTP, AllOk, SameBut, Settled, Making, Targets;
      hide After;
      hide WorkOn, Works;
      ok, es, parts := true, [], [];
      NoWork(desired, current);
      assert desired.Keys - desired.Keys == {};
      MakingStarts(b, current, desired);
      NothingAfter(current);
      var todo := desired.Keys;
      while todo != {}
        invariant todo <= desired.Keys
        invariant client.Valid()
        invariant client.trace == old(client.trace) + es
        invariant client.backends - {b} == old(client.backends - {b}) &&
                  (b in client.backends <==> b in old(client.backends))
        invariant Making(b, client.Servers(b), current, desired, todo, ok, es)
        invariant client.Servers(b) == After(es, current)
        invariant WorkOn(parts, es, ok, desired.Keys - todo, desired, current)
        invariant client.reliable && b in client.backends && TakesAll(client, desired) ==> AllOk(es)
        decreases |todo|
      {
        var name :| name in todo;
        ghost var t := client.Servers(b);
        MakingAt(b, t, current, desired, todo, ok, es, name);
        var oneOk, one := AddOrUpdateServer(b, name, desired[name], current);
        MakingStep(b, t, client.Servers(b), current, desired, todo, name, ok, oneOk, es, one);
        AllOkConcat(es, one);
        AfterBoth(es, one, current);
        MoreWork(parts, es, ok, desired.Keys - todo, desired, current, Part(name, one, oneOk));
        assert desired.Keys - todo + {name} == desired.Keys - (todo - {name});
        parts := parts + [Part(name, one, oneOk)];
        Assoc(old(client.trace), es, one);
        ok := ok && oneOk;
        es := es + one;
        todo := todo - {name};
      }
      assert desired.Keys - todo == desired.Keys;
      MakingEnds(b, client.Servers(b), current, desired, ok, es);
    }

    /** A call that may break its own server and no other. */
    method Break(b: string, c: Command) returns (ok: bool, ghost es: seq<Called>)
      requires Breaks(c) || c.Get?
      requires client.Valid()
      modifies client
      ensures client.Valid()
      ensures client.trace == old(client.trace) + es && (AllOk(es) <==> ok)
      ensures es == [Called(b, c, ok, client.Servers(b))]
      ensures client.backends - {b} == old(client.backends - {b}) &&
              (b in client.backends <==> b in old(client.backends))
      ensures ok ==> Legal(c, old(client.Servers(b))) && client.Servers(b) == Effect(c, old(client.Servers(b)))
      ensures SameBut(old(client.Servers(b)), client.Servers(b), c.name)
      ensures client.Servers(b).Keys <= old(client.Servers(b)).Keys
      ensures Spares(es, b, client.Servers(b) - {c.name})
      ensures client.reliable && b in client.backends && Legal(c, old(client.Servers(b))) ==> ok
    {
      ghost var t := client.Servers(b);
      if Legal(c, t) {
        BreaksOnlyItsOwn(c, t);
      }
      ok := client.Execute(b, c);
      es := [Called(b, c, ok, client.Servers(b))];
      assert es[0].ok == ok;
    }

    /** removeStaleServers for one server: drain, maintenance, a look, deletion with retries until
        the timeout. A failed drain is not reported. The wait for the server to go down never
        runs, because it starts only when the look has just failed. */
    method RemoveStaleServer(b: string, name: string) returns (ok: bool, ghost es: seq<Called>)
      requires client.Valid()
      modifies client
      ensures client.Valid()
      ensures client.trace == old(client.trace) + es
      ensures client.Servers(b) == After(es, old(client.Servers(b)))
      ensures Removes(es, name, ok)
      ensures client.backends - {b} == old(client.backends - {b}) &&
              (b in client.backends <==> b in old(client.backends))
      ensures SameBut(old(client.Servers(b)), client.Servers(b), name)
      ensures client.Servers(b).Keys <= old(client.Servers(b)).Keys
      ensures Spares(es, b, old(client.Servers(b)) - {name})
      ensures ok ==> name !in client.Servers(b)
      ensures AllOk(es) ==> ok
      ensures client.reliable && b in client.backends && name in old(client.Servers(b)) ==> AllOk(es)
    {
      hide WellNamed, Spares, AllOk, Effect, Removes, Removing, After;
      ghost var t, kept := client.Servers(b), client.Servers(b) - {name};
      if name in client.Servers(b) {
        RemovalEffects(client.Servers(b), name);
      }
      var drained, e1 := Break(b, SetDrain(name));
      var disabled, e2 := Break(b, SetMaint(name));
      var seen, e3 := Break(b, Get(name));
      var deleted, e4 := Break(b, Delete(name));
      if deleted {
        DeletionEffect(name);
      }
      es := [e1[0], e2[0], e3[0], e4[0]];
      RemovalCalls(old(client.trace), e1[0], e2[0], e3[0], e4[0], b, kept, t, name);
      var retries: nat := *;
      while !deleted && retries > 0
        invariant client.Valid()
        invariant client.trace == old(client.trace) + es
        invariant client.backends - {b} == old(client.backends - {b}) &&
                  (b in client.backends <==> b in old(client.backends))
        invariant client.Servers(b) - {name} == kept
        invariant client.Servers(b).Keys <= old(client.Servers(b)).Keys
        invariant Spares(es, b, kept)
        invariant client.Servers(b) == After(es, t)
        invariant deleted ==> name !in client.Servers(b)
        invariant Removing(es, name, disabled, seen, deleted)
        invariant AllOk(es) ==> deleted && disabled && seen
        invariant client.reliable && b in client.backends && name in old(client.Servers(b)) ==> AllOk(es)
        decreases retries
      {
        ghost var again;
        deleted, again := Break(b, Delete(name));
        AfterOne(again[0], After(es, t));
        if deleted {
          DeletionEffect(name);
        }
        SparesConcat(es, again, b, kept);
        AllOkConcat(es, again);
        RemovesMore(es, name, disabled, seen, again[0]);
        AfterBoth(es, again, t);
        Assoc(old(client.trace), es, again);
        es := es + again;
        retries := retries - 1;
      }
      RemovesEnd(es, name, disabled, seen, deleted);
      ok := disabled && seen && deleted;
    }

    /** removeStaleServers */
    method RemoveStaleServers(b: string, currentServers: seq<RuntimeServer>, desired: map<string, Host>,
        ghost before: Table)
      returns (ok: bool, ghost es: seq<Called>, ghost parts: seq<Part>)
      requires forall i :: 0 <= i < |currentServers| ==> currentServers[i].name in before
      requires DistinctNames(currentServers)
      requires client.Valid()
      modifies client
      ensures client.Valid()
      ensures client.trace == old(client.trace) + es
      ensures client.Servers(b) == After(es, old(client.Servers(b)))
      ensures WorkOn(parts, es, ok, StaleNames(currentServers, desired), desired, before)
      ensures client.backends - {b} == old(client.backends - {b}) &&
              (b in client.backends <==> b in old(client.backends))
      ensures client.Servers(b).Keys <= old(client.Servers(b)).Keys
      ensures forall n :: n !in StaleNames(currentServers, desired) ==>
        SameAt(client.Servers(b), old(client.Servers(b)), n)
      ensures Spares(es, b, Only(old(client.Servers(b)), desired.Keys))
      ensures ok ==> client.Servers(b).Keys !! StaleNames(currentServers, desired)
      ensures AllOk(es) ==> ok
      ensures client.reliable && b in client.backends &&
              StaleNames(currentServers, desired) <= old(client.Servers(b)).Keys ==>
        AllOk(es)
    {
      hide WellNamed, Spares, AllOk, SameBut, DistinctNames, StaleNames, Only, WorkOn, Removes;
      ok, es, parts := true, [], [];
      StaleNamesNone(desired);
      NoWork(desired, before);
      assert currentServers[..0] == [];
      ghost var t0 := client.Servers(b);
      SparesNothing(b, Only(t0, desired.Keys));
      for i := 0 to |currentServers|
        invariant client.Valid()
        invariant client.trace == old(client.trace) + es
        invariant client.backends - {b} == old(client.backends - {b}) &&
                  (b in client.backends <==> b in old(client.backends))
        invariant client.Servers(b).Keys <= t0.Keys
        invariant forall n :: n !in StaleNames(currentServers[..i], desired) ==> SameAt(client.Servers(b), t0, n)
        invariant Spares(es, b, Only(t0, desired.Keys))
        invariant client.Servers(b) == After(es, t0)
        invariant WorkOn(parts, es, ok, StaleNames(currentServers[..i], desired), desired, before)
        invariant ok ==> client.Servers(b).Keys !! StaleNames(currentServers[..i], desired)
        invariant AllOk(es) ==> ok
        invariant client.reliable && b in client.backends && StaleNames(currentServers, desired) <= t0.Keys ==>
          AllOk(es)
      {
        var name := currentServers[i].name;
        StaleNamesGrow(currentServers, i, desired);
        assert StaleNames(currentServers[..i], desired) + {} == StaleNames(currentServers[..i], desired);
        if name !in desired {
          ghost var t := client.Servers(b);
          var oneOk, one := RemoveStaleServer(b, name);
          SameElsewhere(t, client.Servers(b), name);
          assert forall n :: n !in StaleNames(currentServers[..i + 1], desired) ==>
            SameAt(client.Servers(b), t, n) && SameAt(t, t0, n);
          StaleNotDesired(currentServers[..i], desired);
          SparesMore(one, b, t, name, t0, desired.Keys);
          SparesConcat(es, one, b, Only(t0, desired.Keys));
          AllOkConcat(es, one);
          AfterBoth(es, one, t0);
          MoreWork(parts, es, ok, StaleNames(currentServers[..i], desired), desired, before, Part(name, one, oneOk));
          parts := parts + [Part(name, one, oneOk)];
          Assoc(old(client.trace), es, one);
          ok := ok && oneOk;
          es := es + one;
        }
      }
      assert currentServers[..|currentServers|] == currentServers;
    }

    /** buildDesiredServerMap */
    method BuildDesiredServerMap(hosts: seq<Host>) returns (m: map<string, Host>)
      ensures m == DesiredMap(cfg, resolve, hosts)
    {
      m := map[];
      for i := 0 to |hosts|
        invariant m == DesiredMap(cfg, resolve, hosts[..i])
      {
        assert hosts[..i + 1][..i] == hosts[..i];
        m := m[StableServerName(cfg, hosts[i].host, hosts[i].port) := Resolved(resolve, hosts[i])];
      }
      assert hosts[..|hosts|] == hosts;
    }

    /** buildCurrentServerMap */
    method BuildCurrentServerMap(servers: seq<RuntimeServer>) returns (m: Table)
      ensures m == CurrentMap(servers)
    {
      m := map[];
      for i := 0 to |servers|
        invariant m == CurrentMap(servers[..i])
      {
        assert servers[..i + 1][..i] == servers[..i];
        m := m[servers[i].name := servers[i]];
      }
      assert servers[..|servers|] == servers;
    }

    /** reconcileBackend. Calls before `split` only make servers; those after it only remove. */
    method ReconcileBackend(b: string, desiredHosts: seq<Host>, currentServers: seq<RuntimeServer>)
      returns (ok: bool, ghost es: seq<Called>, ghost split: nat, ghost parts: seq<Part>)
      requires Lists(currentServers, client.Servers(b))
      requires client.Valid()
      modifies client
      ensures client.Valid()
      ensures client.trace == old(client.trace) + es
      ensures client.Servers(b) == After(es, old(client.Servers(b)))
      ensures if AllConfigured(DesiredMap(cfg, resolve, desiredHosts), old(client.Servers(b))) then ok && parts == []
              else WorkOn(parts, es, ok, DesiredMap(cfg, resolve, desiredHosts).Keys + old(client.Servers(b)).Keys,
                     DesiredMap(cfg, resolve, desiredHosts), old(client.Servers(b)))
      ensures client.backends - {b} == old(client.backends - {b}) &&
              (b in client.backends <==> b in old(client.backends))
      ensures Identical(DesiredMap(cfg, resolve, desiredHosts), old(client.Servers(b))) ==>
        ok && es == [] && client.Servers(b) == old(client.Servers(b))
      ensures ok ==> client.Servers(b).Keys == Targets(DesiredMap(cfg, resolve, desiredHosts), old(client.Servers(b)))
      ensures ok ==> OnlyAsked(DesiredMap(cfg, resolve, desiredHosts), old(client.Servers(b)), client.Servers(b))
      ensures AllOk(es) ==> ok
      ensures AllOk(es) && PlainHosts(DesiredMap(cfg, resolve, desiredHosts)) ==>
        Settled(Targets(DesiredMap(cfg, resolve, desiredHosts), old(client.Servers(b))),
          DesiredMap(cfg, resolve, desiredHosts), client.Servers(b))
      ensures client.reliable && b in client.backends && TakesAll(client, DesiredMap(cfg, resolve, desiredHosts)) ==>
        AllOk(es)
      ensures (AllOk(es) && PlainHosts(DesiredMap(cfg, resolve, desiredHosts))) || es == [] ==>
        AsConfigured(DesiredMap(cfg, resolve, desiredHosts), old(client.Servers(b)), client.Servers(b))
      ensures AllConfigured(DesiredMap(cfg, resolve, desiredHosts), old(client.Servers(b))) ==> ok && es == []
      ensures OnBackend(es, b)
      ensures PlainHosts(DesiredMap(cfg, resolve, desiredHosts)) ==>
        MakeBeforeBreak(es, b, old(client.Servers(b)),
          Targets(DesiredMap(cfg, resolve, desiredHosts), old(client.Servers(b))), split)
    {
      hide WellNamed, Spares, AllOk, StaleNames, Only, Targets, Lists, CurrentMap, DesiredMap, PlainHosts;
      hide Settled, OnlyMakes, Identical, AsConfigured, AllConfigured, OnlyAsked, WorkOn;
      es, split, parts := [], 0, [];
      ghost var t0 := client.Servers(b);
      NothingHappened(b, t0);
      var desired := BuildDesiredServerMap(desiredHosts);
      var current := BuildCurrentServerMap(currentServers);
      CurrentMapOfListing(currentServers, t0);
      ConfiguredIsIdentical(desired, t0);
      var same := AreServerMapsIdentical(desired, current);
      if same {
        IdenticalIsSettled(desired, t0);
        SettledIsConfigured(desired, t0, t0);
        TargetsAreAsked(desired, t0, t0);
        return true, [], 0, [];
      }
      ghost var e1, e2, p1, p2;
      var made, removed;
      made, e1, p1 := AddOrUpdateServers(b, desired, current);
      ghost var t1 := client.Servers(b);
      split := |e1|;
      ListingNames(currentServers, t0, desired);
      ListedNames(currentServers, t0);
      removed, e2, p2 := RemoveStaleServers(b, currentServers, desired, t0);
      WorkOnBoth(p1, e1, made, desired.Keys, p2, e2, removed, t0.Keys - desired.Keys, desired, t0);
      assert desired.Keys + (t0.Keys - desired.Keys) == desired.Keys + t0.Keys;
      parts := p1 + p2;
      es := e1 + e2;
      assert es[..split] == e1;
      AllOkConcat(e1, e2);
      ok := made && removed;
      if ok {
        RemovalLeavesTargets(desired, t0, t1, client.Servers(b));
        TargetsAreAsked(desired, t0, client.Servers(b));
      }
      AfterBoth(e1, e2, t0);
      if e1 == [] || (AllOk(e1) && PlainHosts(desired)) {
        SettledSurvives(desired, t0, t1, client.Servers(b));
        SettledIsConfigured(desired, t0, client.Servers(b));
      }
      if AllOk(e1) && PlainHosts(desired) {
        SettledStaysReady(desired, t0, t1, e2, b);
      }
      CallsOnBackend(e1, e2, b, ReadyNames(t0), Only(t1, desired.Keys));
      if PlainHosts(desired) {
        MakeThenRemove(e1, e2, b, t0, Targets(desired, t0));
      }
      Assoc(old(client.trace), e1, e2);
    }
  }

  /** A host with its address resolved (updateHostWithIP). */
  function Resolved(resolve: string -> string, host: Host): Host {
    host.(host := resolve(host.host))
  }

  /** The desired servers by name; of two hosts with one name the later stays. */
  function DesiredMap(cfg: NameConfig, resolve: string -> string, hosts: seq<Host>): map<string, Host> {
    if hosts == [] then map[]
    else
      var h := hosts[|hosts| - 1];
      DesiredMap(cfg, resolve, hosts[..|hosts| - 1])[StableServerName(cfg, h.host, h.port) := Resolved(resolve, h)]
  }

  function CurrentMap(servers: seq<RuntimeServer>): Table {
    if servers == [] then map[]
    else CurrentMap(servers[..|servers| - 1])[servers[|servers| - 1].name := servers[|servers| - 1]]
  }

  /** The list is a full listing of the table, one row a server. */
  ghost predicate Lists(servers: seq<RuntimeServer>, t: Table) {
    && DistinctNames(servers)
    && (forall i :: 0 <= i < |servers| ==> servers[i].name in t && t[servers[i].name] == servers[i])
    && (forall n :: n in t ==> exists i :: 0 <= i < |servers| && servers[i].name == n)
  }

  lemma {:induction false} CurrentMapCovers(servers: seq<RuntimeServer>)
    requires DistinctNames(servers)
    ensures forall i :: 0 <= i < |servers| ==>
      servers[i].name in CurrentMap(servers) && CurrentMap(servers)[servers[i].name] == servers[i]
    ensures forall n :: n in CurrentMap(servers) ==> exists i :: 0 <= i < |servers| && servers[i].name == n
  {
    if servers != [] {
      var before := servers[..|servers| - 1];
      CurrentMapCovers(before);
      forall n | n in CurrentMap(servers) ensures exists i :: 0 <= i < |servers| && servers[i].name == n {
        if n in CurrentMap(before) {
          var i :| 0 <= i < |before| && before[i].name == n;
          assert servers[i].name == n;
        } else {
          assert servers[|servers| - 1].name == n;
        }
      }
      forall i | 0 <= i < |servers|
        ensures servers[i].name in CurrentMap(servers) && CurrentMap(servers)[servers[i].name] == servers[i]
      {
        if i < |before| {
          assert before[i] == servers[i];
        }
      }
    }
  }

  lemma CurrentMapOfListing(servers: seq<RuntimeServer>, t: Table)
    requires Lists(servers, t)
    ensures CurrentMap(servers) == t
  {
    hide CurrentMap, DistinctNames;
    CurrentMapCovers(servers);
    var m := CurrentMap(servers);
    forall n | n in t ensures n in m && m[n] == t[n] {
      var i :| 0 <= i < |servers| && servers[i].name == n;
    }
    forall n | n in m ensures n in t {
      var i :| 0 <= i < |servers| && servers[i].name == n;
    }
  }

  lemma ListingNames(servers: seq<RuntimeServer>, t: Table, desired: map<string, Host>)
    requires Lists(servers, t)
    ensures DistinctNames(servers)
    ensures StaleNames(servers, desired) == t.Keys - desired.Keys
  {
    hide DistinctNames;
    forall n | n in t.Keys - desired.Keys ensures n in StaleNames(servers, desired) {
      var i :| 0 <= i < |servers| && servers[i].name == n;
    }
  }

  /** Initially ready servers stay ready until the split; if every call before it succeeds, all
      targets are ready from then on. */
  ghost predicate MakeBeforeBreak(es: seq<Called>, b: string, t: Table, targets: set<string>, split: nat) {
    && split <= |es|
    && OnlyMakes(es[..split], b, ReadyNames(t))
    && (AllOk(es[..split]) ==> forall i :: split <= i < |es| ==> targets <= ReadyNames(es[i].after))
  }

  /** So a backend with something to keep is never without a ready server. */
  lemma NeverEmpty(es: seq<Called>, b: string, t: Table, targets: set<string>, split: nat)
    requires MakeBeforeBreak(es, b, t, targets, split) && AllOk(es[..split])
    requires ReadyNames(t) != {} && targets != {}
    ensures forall i :: 0 <= i < |es| ==> ReadyNames(es[i].after) != {}
  {
    hide ReadyNames, Breaks;
    forall i | 0 <= i < |es| ensures ReadyNames(es[i].after) != {} {
      if i < split {
        assert es[..split][i] == es[i];
        assert ReadyNames(t) <= ReadyNames(es[i].after);
      }
    }
  }

  lemma NothingHappened(b: string, t: Table)
    ensures AllOk([]) && forall targets :: MakeBeforeBreak([], b, t, targets, 0)
  {
  }

  lemma IdenticalIsSettled(desired: map<string, Host>, t: Table)
    requires Identical(desired, t)
    ensures t.Keys == Targets(desired, t) && Settled(Targets(desired, t), desired, t)
  {
    hide Matches, IsHTTP;
  }

  lemma RemovalLeavesTargets(desired: map<string, Host>, t0: Table, t1: Table, t2: Table)
    requires t0.Keys <= t1.Keys <= t0.Keys + Targets(desired, t0) && Targets(desired, t0) <= t1.Keys
    requires t2.Keys <= t1.Keys && t2.Keys !! (t0.Keys - desired.Keys)
    requires forall n :: n !in t0.Keys - desired.Keys ==> SameAt(t2, t1, n)
    ensures t2.Keys == Targets(desired, t0)
  {
    hide IsHTTP;
    forall n | n in Targets(desired, t0) ensures n in t2 {
      assert SameAt(t2, t1, n);
    }
  }

  lemma SettledSurvives(desired: map<string, Host>, t0: Table, t1: Table, t2: Table)
    requires Settled(Targets(desired, t0), desired, t1)
    requires forall n :: n !in t0.Keys - desired.Keys ==> SameAt(t2, t1, n)
    ensures Settled(Targets(desired, t0), desired, t2)
  {
    hide IsHTTP, Matches, Targets;
    assert forall n :: n in desired ==> SameAt(t2, t1, n);
  }

  lemma SettledStaysReady(desired: map<string, Host>, t0: Table, t1: Table, es: seq<Called>, b: string)
    requires Settled(Targets(desired, t0), desired, t1) && Spares(es, b, Only(t1, desired.Keys))
    ensures forall i :: 0 <= i < |es| ==> Targets(desired, t0) <= ReadyNames(es[i].after)
  {
    forall i | 0 <= i < |es| ensures Targets(desired, t0) <= ReadyNames(es[i].after) {
      forall n | n in Targets(desired, t0) ensures n in ReadyNames(es[i].after) {
        assert n in Only(t1, desired.Keys);
      }
    }
  }

  ghost predicate OnBackend(es: seq<Called>, b: string) {
    forall i :: 0 <= i < |es| ==> es[i].backend == b
  }

  lemma CallsOnBackend(es: seq<Called>, fs: seq<Called>, b: string, ready: set<string>, kept: Table)
    requires OnlyMakes(es, b, ready) && Spares(fs, b, kept)
    ensures OnBackend(es + fs, b)
  {
    hide ReadyNames, Breaks;
  }

  lemma MakeThenRemove(es: seq<Called>, fs: seq<Called>, b: string, t: Table, targets: set<string>)
    requires OnlyMakes(es, b, ReadyNames(t))
    requires AllOk(es) ==> forall i :: 0 <= i < |fs| ==> targets <= ReadyNames(fs[i].after)
    ensures MakeBeforeBreak(es + fs, b, t, targets, |es|)
  {
    hide OnlyMakes, AllOk, ReadyNames;
    assert (es + fs)[..|es|] == es;
  }

  lemma ListedNames(servers: seq<RuntimeServer>, t: Table)
    requires Lists(servers, t)
    ensures forall i :: 0 <= i < |servers| ==> servers[i].name in t
  {
  }

  /** The names that a removal works on. */
  function StaleNames(servers: seq<RuntimeServer>, desired: map<string, Host>): set<string> {
    set i | 0 <= i < |servers| && servers[i].name !in desired :: servers[i].name
  }

  ghost predicate DistinctNames(servers: seq<RuntimeServer>) {
    forall i, j :: 0 <= i < j < |servers| ==> servers[i].name != servers[j].name
  }

  lemma StaleNamesNone(desired: map<string, Host>)
    ensures StaleNames([], desired) == {}
  {
  }

  lemma StaleNotDesired(servers: seq<RuntimeServer>, desired: map<string, Host>)
    ensures StaleNames(servers, desired) !! desired.Keys
  {
  }

  lemma StaleNamesGrow(servers: seq<RuntimeServer>, i: nat, desired: map<string, Host>)
    requires i < |servers| && DistinctNames(servers)
    ensures StaleNames(servers[..i + 1], desired)
         == StaleNames(servers[..i], desired) + if servers[i].name in desired then {} else {servers[i].name}
    ensures servers[i].name !in StaleNames(servers[..i], desired)
    ensures servers[i].name !in desired ==> servers[i].name in StaleNames(servers, desired)
  {
    var before, after := servers[..i], servers[..i + 1];
    assert forall k :: 0 <= k < i ==> before[k] == servers[k] && after[k] == servers[k];
    assert after[i] == servers[i];
    forall n | n in StaleNames(before, desired) ensures n in StaleNames(after, desired) && n != servers[i].name {
      var k :| 0 <= k < i && before[k].name == n && before[k].name !in desired;
      assert after[k].name == n;
    }
  }

  function Only(t: Table, names: set<string>): Table {
    map n | n in t && n in names :: t[n]
  }

  lemma BreaksOnlyItsOwn(c: Command, t: Table)
    requires Legal(c, t) && (Breaks(c) || c.Get?)
    ensures SameBut(t, Effect(c, t), c.name)
    ensures Effect(c, t).Keys <= t.Keys
  {
  }

  /** Drained and put into maintenance, a server may be deleted. */
  lemma RemovalEffects(t: Table, name: string)
    requires name in t
    ensures var t1 := Effect(SetDrain(name), t);
      name in t1 && var t2 := Effect(SetMaint(name), t1);
      Legal(Delete(name), t2) && Effect(Get(name), t2) == t2
  {
  }

  lemma DeletionEffect(name: string)
    ensures forall t :: Legal(Delete(name), t) ==> name !in Effect(Delete(name), t)
  {
  }

  lemma SparesNothing(b: string, kept: Table)
    ensures Spares([], b, kept) && AllOk([])
  {
  }

  lemma SparesConcat(es: seq<Called>, fs: seq<Called>, b: string, kept: Table)
    requires Spares(es, b, kept) && Spares(fs, b, kept)
    ensures Spares(es + fs, b, kept)
  {
  }

  lemma SparesMore(es: seq<Called>, b: string, t: Table, name: string, t0: Table, names: set<string>)
    requires Spares(es, b, t - {name}) && name !in names
    requires forall n :: n in names && n in t0 ==> SameAt(t, t0, n)
    ensures Spares(es, b, Only(t0, names))
  {
    var kept, only := t - {name}, Only(t0, names);
    forall n | n in only ensures n in kept && kept[n] == only[n] {
      assert SameAt(t, t0, n);
    }
  }

  /** The server of this name is the same in both, or in neither. */
  predicate SameAt(t: Table, t': Table, n: string) {
    (n in t <==> n in t') && (n in t ==> t[n] == t'[n])
  }

  lemma SameElsewhere(t: Table, t': Table, name: string)
    requires SameBut(t, t', name)
    ensures forall n :: n != name ==> SameAt(t', t, n)
  {
    forall n | n != name ensures SameAt(t', t, n) {
      assert n in t <==> n in t - {name};
      assert n in t' <==> n in t' - {name};
      assert n in t ==> t[n] == (t - {name})[n];
      assert n in t' ==> t'[n] == (t' - {name})[n];
    }
  }

  /** How far the adds and updates have come: what is still to do is untouched. */
  ghost predicate Made(t: Table, current: Table, desired: map<string, Host>, todo: set<string>, ok: bool) {
    && current.Keys <= t.Keys <= current.Keys + Targets(desired, current)
    && (forall n :: n !in desired || n in todo ==> SameAt(t, current, n))
    && (ok ==> Targets(desired, current) - todo <= t.Keys)
  }

  lemma MadeNothing(desired: map<string, Host>, current: Table)
    ensures Made(current, current, desired, desired.Keys, true)
  {
  }

  lemma MadeAt(t: Table, current: Table, desired: map<string, Host>, todo: set<string>, name: string, ok: bool)
    requires Made(t, current, desired, todo, ok) && name in todo
    ensures SameAt(t, current, name)
  {
  }

  lemma MadeAll(t: Table, current: Table, desired: map<string, Host>, ok: bool)
    requires Made(t, current, desired, {}, ok)
    ensures current.Keys <= t.Keys <= current.Keys + Targets(desired, current)
    ensures forall n :: n !in desired ==> SameAt(t, current, n)
    ensures ok ==> Targets(desired, current) <= t.Keys
  {
  }

  /** How far AddOrUpdateServers has come. */
  ghost predicate Making(b: string, t: Table, current: Table, desired: map<string, Host>, todo: set<string>,
      ok: bool, es: seq<Called>) {
    && Made(t, current, desired, todo, ok)
    && ReadyNames(current) <= ReadyNames(t) && OnlyMakes(es, b, ReadyNames(current))
    && (AllOk(es) ==> ok)
    && (AllOk(es) && PlainHosts(desired) ==> Settled(Targets(desired, current) - todo, desired, t))
    && (es == [] ==> Settled(Targets(desired, current) - todo, desired, t))
  }

  lemma MakingStarts(b: string, current: Table, desired: map<string, Host>)
    ensures Making(b, current, current, desired, desired.Keys, true, []) && AllOk([])
  {
    hide Made, OnlyMakes, ReadyNames, Settled, Targets;
    MadeNothing(desired, current);
    SettledNothing(desired.Keys, Targets(desired, current), desired, current);
    AllOkOfNothing(b, ReadyNames(current));
  }

  lemma MakingAt(b: string, t: Table, current: Table, desired: map<string, Host>, todo: set<string>, ok: bool,
      es: seq<Called>, name: string)
    requires Making(b, t, current, desired, todo, ok, es) && name in todo
    ensures SameAt(t, current, name)
  {
    hide Made;
    MadeAt(t, current, desired, todo, name, ok);
  }

  lemma MakingStep(b: string, t: Table, t': Table, current: Table, desired: map<string, Host>, todo: set<string>,
      name: string, ok: bool, oneOk: bool, es: seq<Called>, one: seq<Called>)
    requires Making(b, t, current, desired, todo, ok, es) && name in todo && name in desired
    requires SameBut(t, t', name)
    requires t.Keys <= t'.Keys <= t.Keys + if IsHTTP(desired[name]) then {name} else {}
    requires ReadyNames(t) <= ReadyNames(t') && OnlyMakes(one, b, ReadyNames(t))
    requires oneOk && IsHTTP(desired[name]) ==> name in t'
    requires AllOk(one) ==> oneOk
    requires AllOk(one) && PlainAddress(desired[name].host) && (IsHTTP(desired[name]) || name in current) ==>
      name in t' && Matches(desired[name], t'[name])
    requires one == [] && (IsHTTP(desired[name]) || name in current) ==>
      name in t' && Matches(desired[name], t'[name])
    ensures Making(b, t', current, desired, todo - {name}, ok && oneOk, es + one)
  {
    hide Made, OnlyMakes, ReadyNames, Settled, Targets, SameBut, IsHTTP, AllOk, Matches, PlainAddress;
    MadeStep(t, t', current, desired, todo, name, ok, oneOk);
    OnlyMakesConcat(es, one, b, ReadyNames(current), ReadyNames(t));
    AllOkConcat(es, one);
    if es + one == [] || (AllOk(es) && AllOk(one) && PlainHosts(desired)) {
      TargetsAre(desired, current, name);
      SettledGrows(Targets(desired, current), todo, name, desired, t, t');
    }
  }

  lemma MakingEnds(b: string, t: Table, current: Table, desired: map<string, Host>, ok: bool, es: seq<Called>)
    requires Making(b, t, current, desired, {}, ok, es)
    ensures current.Keys <= t.Keys <= current.Keys + Targets(desired, current)
    ensures forall n :: n !in desired ==> SameAt(t, current, n)
    ensures OnlyMakes(es, b, ReadyNames(current))
    ensures ok ==> Targets(desired, current) <= t.Keys
    ensures AllOk(es) ==> ok
    ensures AllOk(es) && PlainHosts(desired) ==> Settled(Targets(desired, current), desired, t)
    ensures es == [] ==> Settled(Targets(desired, current), desired, t)
  {
    hide Made, OnlyMakes, ReadyNames, Settled, Targets, AllOk, PlainHosts;
    MadeAll(t, current, desired, ok);
    assert Targets(desired, current) - {} == Targets(desired, current);
  }

  lemma MadeStep(t: Table, t': Table, current: Table, desired: map<string, Host>, todo: set<string>,
      name: string, ok: bool, oneOk: bool)
    requires Made(t, current, desired, todo, ok) && name in todo && name in desired
    requires SameBut(t, t', name)
    requires t.Keys <= t'.Keys <= t.Keys + if IsHTTP(desired[name]) then {name} else {}
    requires oneOk && IsHTTP(desired[name]) ==> name in t'
    ensures Made(t', current, desired, todo - {name}, ok && oneOk)
  {
    hide SameBut, IsHTTP, Targets;
    SameElsewhere(t, t', name);
    TargetsAre(desired, current, name);
    forall n | n in t'.Keys ensures n in current.Keys + Targets(desired, current) {
      assert n in t.Keys || (n == name && IsHTTP(desired[name]));
    }
    assert forall n :: n !in desired || n in todo - {name} ==> SameAt(t, current, n) && SameAt(t', t, n);
    if ok && oneOk {
      forall n | n in Targets(desired, current) - (todo - {name}) ensures n in t'.Keys {
        if n == name {
          assert n in current || IsHTTP(desired[name]);
        }
      }
      assert Targets(desired, current) - (todo - {name}) <= t'.Keys;
    }
    assert current.Keys <= t'.Keys <= current.Keys + Targets(desired, current);
  }

  lemma SettledNothing(todo: set<string>, targets: set<string>, desired: map<string, Host>, t: Table)
    requires todo == desired.Keys
    ensures Settled(targets - todo, desired, t)
  {
  }

  lemma SettledGrows(targets: set<string>, todo: set<string>, name: string, desired: map<string, Host>, t: Table,
      t': Table)
    requires SameBut(t, t', name)
    requires Settled(targets - todo, desired, t)
    requires name in targets && name in desired ==> name in t' && Matches(desired[name], t'[name])
    ensures Settled(targets - (todo - {name}), desired, t')
  {
    hide Matches;
    SameElsewhere(t, t', name);
    assert forall n :: n in desired && n != name ==> SameAt(t', t, n);
  }

  lemma AllOkOfNothing(b: string, ready: set<string>)
    ensures AllOk([]) && OnlyMakes([], b, ready)
  {
  }

  lemma ZeroNeverMatches(host: Host)
    ensures !Matches(host, ZERO_SERVER)
  {
  }

  lemma PlainIsTaken(client: Proxy, host: Host)
    requires PlainAddress(host.host) && client.accepts(host.host)
    ensures client.Takes(host)
  {
    hide FormatRuntimeServerEndpoint, ReadEndpoint, ParseInt, PlainAddress;
    EndpointIsReadable(host);
  }

  lemma EndpointIsReadable(host: Host)
    ensures var endpoint := FormatRuntimeServerEndpoint(host.host, host.port);
      ReadEndpoint(endpoint).Some? && ParseInt(ReadEndpoint(endpoint).value.1) == Some(host.port)
      && (PlainAddress(host.host) <==> ReadEndpoint(endpoint).value.0 == host.host)
  {
    hide FormatRuntimeServerEndpoint, ReadEndpoint, ParseInt, PlainAddress, TrimSpace, Itoa;
    ReadRuntimeEndpoint(host.host, host.port);
    RuntimeEndpointRoundTripIffPlain(host.host, host.port);
    ParseIntItoa(host.port);
  }

  /** Adding a plain address and setting it ready settles the server. */
  lemma AddSettles(t: Table, name: string, host: Host)
    requires name !in t
    ensures var add := Add(name, FormatRuntimeServerEndpoint(host.host, host.port));
      Legal(add, t) && var t1 := Effect(add, t);
      name in t1 && var t2 := Effect(SetReady(name), t1);
      name in t2 && (PlainAddress(host.host) ==> Matches(host, t2[name]))
  {
    hide FormatRuntimeServerEndpoint, ReadEndpoint, ParseInt, PlainAddress;
    EndpointIsReadable(host);
  }
}
