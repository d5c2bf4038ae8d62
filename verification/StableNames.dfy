/** What the gateway knows about an app, and the names it gives HAProxy backends and servers. */
module StableNames {
  import opened GoStrings

  type Int32 = n: int | -0x8000_0000 <= n < 0x8000_0000

  datatype Host = Host(host: string, port: Int32, portType: string)

  type Tags = Option<map<string, string>>

  /** Hosts that share a routing tag value. */
  datatype HostGroup = HostGroup(hosts: seq<Host>, tags: Tags)

  datatype App = App(
    id: string,
    vhost: string,
    hosts: seq<Host>,
    tags: Tags,
    groups: map<string, HostGroup>,
    routingTagKey: string)

  /** The settings that shape names; each string has a non-empty default. */
  datatype NameConfig = NameConfig(
    serverNamePrefix: string,
    hostPortSeparator: string,
    backendNameSeparator: string,
    includeRoutingTagSuffix: bool)

  /** HAProxyManager.GenerateStableBackendName */
  function StableBackendName(cfg: NameConfig, vhost: string, routingTagKey: string, group: string): string {
    if cfg.includeRoutingTagSuffix && routingTagKey != "" then vhost + cfg.backendNameSeparator + group else vhost
  }

  /** The backend of one of an app's groups. */
  function GroupBackend(cfg: NameConfig, app: App, group: string): string {
    StableBackendName(cfg, app.vhost, app.routingTagKey, group)
  }

  /** The replacer that keeps ':' out of server names. */
  function Sanitize(host: string, separator: string): string {
    if host == "" then ""
    else (if host[0] == ':' then separator else [host[0]]) + Sanitize(host[1..], separator)
  }

  /** HAProxyManager.GenerateStableServerName */
  function StableServerName(cfg: NameConfig, host: string, port: int): string {
    cfg.serverNamePrefix + cfg.hostPortSeparator + Sanitize(host, cfg.hostPortSeparator) + cfg.hostPortSeparator
      + Itoa(port)
  }

  /** Reading a server name from its end, the port stops at this character: it is no digit, and
      no minus unless the port has no sign. */
  predicate EndsPort(c: char, port: int) {
    !IsDigit(c) && (c == '-' ==> port >= 0)
  }

  /** The longest suffix that could be a port number, with or without a sign. */
  function PortSuffix(s: string, signed: bool): (n: nat)
    ensures n <= |s|
  {
    if s == "" || !PortCharacter(s[|s| - 1], signed) then 0 else 1 + PortSuffix(s[..|s| - 1], signed)
  }

  predicate PortCharacter(c: char, signed: bool) {
    IsDigit(c) || (signed && c == '-')
  }

  lemma {:induction false} PortSuffixOf(front: string, port: string, signed: bool)
    requires front != "" && !PortCharacter(front[|front| - 1], signed)
    requires forall i :: 0 <= i < |port| ==> PortCharacter(port[i], signed)
    ensures PortSuffix(front + port, signed) == |port|
  {
    if port == "" {
      assert front + port == front;
    } else {
      var s := front + port;
      assert s[..|s| - 1] == front + port[..|port| - 1];
      PortSuffixOf(front, port[..|port| - 1], signed);
    }
  }

  lemma ItoaInjective(m: int, n: int)
    requires Itoa(m) == Itoa(n)
    ensures m == n
  {
    hide NatToString, DigitsValue;
    var a, b := NatToString(if m < 0 then -m else m), NatToString(if n < 0 then -n else n);
    DigitsValueOfNat(if m < 0 then -m else m);
    DigitsValueOfNat(if n < 0 then -n else n);
    assert IsDigit(a[0]) && IsDigit(b[0]);
    assert m < 0 ==> Itoa(m)[0] == '-' && Itoa(m)[1..] == a;
    assert n < 0 ==> Itoa(n)[0] == '-' && Itoa(n)[1..] == b;
  }

  /** Two hosts share a server name exactly when their ports agree and their addresses look the
      same once ':' is replaced. */
  lemma ServerNamesEqualIff(cfg: NameConfig, h1: string, p1: int, h2: string, p2: int)
    requires cfg.hostPortSeparator != ""
    requires var c := cfg.hostPortSeparator[|cfg.hostPortSeparator| - 1]; EndsPort(c, p1) && EndsPort(c, p2)
    ensures StableServerName(cfg, h1, p1) == StableServerName(cfg, h2, p2)
       <==> p1 == p2 && Sanitize(h1, cfg.hostPortSeparator) == Sanitize(h2, cfg.hostPortSeparator)
  {
    var sep := cfg.hostPortSeparator;
    var lead := cfg.serverNamePrefix + sep;
    var f1 := lead + Sanitize(h1, sep) + sep;
    var f2 := lead + Sanitize(h2, sep) + sep;
    var signed := sep[|sep| - 1] != '-';
    PortSuffixOf(f1, Itoa(p1), signed);
    PortSuffixOf(f2, Itoa(p2), signed);
    if f1 + Itoa(p1) == f2 + Itoa(p2) {
      var s := f1 + Itoa(p1);
      assert s[|f1|..] == Itoa(p1) && s[|f2|..] == Itoa(p2);
      assert s[..|f1|] == f1 && s[..|f2|] == f2;
      ItoaInjective(p1, p2);
      assert f1[|lead|..|f1| - |sep|] == Sanitize(h1, sep);
      assert f2[|lead|..|f2| - |sep|] == Sanitize(h2, sep);
    }
  }

  /** Each colon is replaced, and nothing else. */
  lemma {:induction false} SanitizeIs(front: string, rest: string, separator: string)
    requires ':' !in front
    ensures Sanitize(front, separator) == front
    ensures Sanitize(front + ":" + rest, separator) == front + separator + Sanitize(rest, separator)
  {
    if front == "" {
      assert (front + ":" + rest)[1..] == rest;
    } else {
      assert (front + ":" + rest)[1..] == front[1..] + ":" + rest;
      SanitizeIs(front[1..], rest, separator);
    }
  }

  /** A server's name is its address and port behind a prefix, all set apart by the separator. */
  lemma ServerNameText(cfg: NameConfig, host: string, port: int)
    requires ':' !in host
    ensures StableServerName(cfg, host, port)
         == cfg.serverNamePrefix + cfg.hostPortSeparator + host + cfg.hostPortSeparator + Itoa(port)
  {
    hide Itoa, Sanitize;
    SanitizeIs(host, "", cfg.hostPortSeparator);
  }

  /** In an address with colons the separator stands for each of them. */
  lemma ServerNameOfColons(cfg: NameConfig, front: string, rest: string, port: int)
    requires ':' !in front
    ensures StableServerName(cfg, front + ":" + rest, port)
         == cfg.serverNamePrefix + cfg.hostPortSeparator + (front + cfg.hostPortSeparator +
            Sanitize(rest, cfg.hostPortSeparator)) + cfg.hostPortSeparator + Itoa(port)
  {
    hide Itoa, Sanitize;
    SanitizeIs(front, rest, cfg.hostPortSeparator);
  }

  /** A backend is named after the vhost, and after the group too where names are to carry it. */
  lemma BackendNameText(cfg: NameConfig, app: App, group: string)
    ensures !cfg.includeRoutingTagSuffix || app.routingTagKey == "" ==> GroupBackend(cfg, app, group) == app.vhost
    ensures cfg.includeRoutingTagSuffix && app.routingTagKey != "" ==>
      GroupBackend(cfg, app, group) == app.vhost + cfg.backendNameSeparator + group
  {
  }

  lemma {:induction false} SanitizeInjective(h1: string, h2: string, sep: char)
    requires sep !in h1 && sep !in h2
    requires Sanitize(h1, [sep]) == Sanitize(h2, [sep])
    ensures h1 == h2
  {
    SanitizeLength(h1, sep);
    SanitizeLength(h2, sep);
    if h1 != "" {
      var s := Sanitize(h1, [sep]);
      assert s[1..] == Sanitize(h1[1..], [sep]);
      assert s[1..] == Sanitize(h2[1..], [sep]);
      assert s[0] == if h1[0] == ':' then sep else h1[0];
      assert s[0] == if h2[0] == ':' then sep else h2[0];
      SanitizeInjective(h1[1..], h2[1..], sep);
      assert h1 == [h1[0]] + h1[1..] && h2 == [h2[0]] + h2[1..];
    }
  }

  lemma SanitizeLength(h: string, sep: char)
    ensures |Sanitize(h, [sep])| == |h|
  {
  }

  /** Distinct (address, port) pairs get distinct names when addresses lack the separator. */
  lemma ServerNameInjective(cfg: NameConfig, h1: string, p1: int, h2: string, p2: int)
    requires |cfg.hostPortSeparator| == 1 && EndsPort(cfg.hostPortSeparator[0], p1) &&
      EndsPort(cfg.hostPortSeparator[0], p2)
    requires cfg.hostPortSeparator[0] !in h1 && cfg.hostPortSeparator[0] !in h2
    ensures StableServerName(cfg, h1, p1) == StableServerName(cfg, h2, p2) <==> h1 == h2 && p1 == p2
  {
    var sep := cfg.hostPortSeparator;
    assert sep == [sep[0]];
    ServerNamesEqualIff(cfg, h1, p1, h2, p2);
    if Sanitize(h1, sep) == Sanitize(h2, sep) {
      SanitizeInjective(h1, h2, sep[0]);
    }
  }

  /** Without that condition names do collide: ':' and the separator become the same character. */
  lemma ServerNameCollision(cfg: NameConfig, port: int)
    requires cfg.hostPortSeparator == "_"
    ensures StableServerName(cfg, "a:b", port) == StableServerName(cfg, "a_b", port)
  {
    SanitizeOfABC("a:b");
    SanitizeOfABC("a_b");
  }

  /** A minus as the separator also runs into the sign of a negative port. */
  lemma SignedPortCollision(cfg: NameConfig, port: int)
    requires cfg.hostPortSeparator == "-" && port > 0
    ensures StableServerName(cfg, "a:", port) == StableServerName(cfg, "a", -port)
  {
    hide NatToString;
    assert ("a:")[1..] == ":" && (":")[1..] == "" && ("a")[1..] == "";
    assert Sanitize(":", "-") == "-" && Sanitize("a:", "-") == "a-" && Sanitize("a", "-") == "a";
    assert ("a" + "-") + Itoa(-port) == (("a-") + "-") + Itoa(port);
  }

  lemma SanitizeOfABC(h: string)
    requires |h| == 3
    ensures Sanitize(h, "_")
      == (if h[0] == ':' then "_" else [h[0]]) + (if h[1] == ':' then "_" else [h[1]])
      + (if h[2] == ':' then "_" else [h[2]])
  {
    assert h[1..][1..] == h[2..];
    assert h[2..][1..] == "";
    assert Sanitize(h[2..], "_") == if h[2] == ':' then "_" else [h[2]];
    assert Sanitize(h[1..], "_") == (if h[1] == ':' then "_" else [h[1]]) + Sanitize(h[2..], "_");
  }

  /** With suffixes on and a routing tag configured, distinct (vhost, group) pairs get distinct
      backend names when vhosts lack the separator. */
  lemma BackendNameInjective(cfg: NameConfig, key: string, v1: string, g1: string, v2: string, g2: string)
    requires cfg.includeRoutingTagSuffix && key != ""
    requires |cfg.backendNameSeparator| == 1
    requires cfg.backendNameSeparator[0] !in v1 && cfg.backendNameSeparator[0] !in v2
    ensures StableBackendName(cfg, v1, key, g1) == StableBackendName(cfg, v2, key, g2) <==> v1 == v2 && g1 == g2
  {
    var sep := cfg.backendNameSeparator;
    var n1, n2 := v1 + sep + g1, v2 + sep + g2;
    if n1 == n2 {
      assert n1[|v1|] == sep[0] && n2[|v2|] == sep[0];
      assert forall i :: 0 <= i < |v1| ==> n1[i] == v1[i];
      assert forall i :: 0 <= i < |v2| ==> n2[i] == v2[i];
      assert |v1| == |v2|;
      assert n1[..|v1|] == v1 && n2[..|v2|] == v2;
      assert n1[|v1| + 1..] == g1 && n2[|v2| + 1..] == g2;
    }
  }
}
