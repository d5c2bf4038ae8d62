/** Endpoint text: the two formatters that the gateway uses for "address:port", the reading
    that HAProxy makes of such text, and when the three agree. IPv6 addresses are bracketed
    as in section 3.2.2 of RFC 3986. */
module Endpoints {
  import opened GoStrings

  predicate Bracketed(host: string) {
    |host| >= 2 && host[0] == '[' && host[|host| - 1] == ']'
  }

  function StripBrackets(host: string): string {
    if Bracketed(host) then host[1..|host| - 1] else host
  }

  /** formatServerEndpoint, the form written into managed config blocks. `isIPv6Literal` stands
      for "net.ParseIP succeeds and To4 is nil". */
  function FormatServerEndpointWith(addr: string, port: string, isIPv6Literal: string -> bool): string {
    var host := TrimSpace(addr);
    var formatted :=
      if isIPv6Literal(host) then "[" + host + "]"
      else if ':' in host then
        if !("[" <= host) then "[" + host + "]"
        else if !HasSuffix(host, "]") then "[" + host + "]"
        else host
      else host;
    formatted + ":" + port
  }

  /** The same text, decided without parsing the address. */
  function FormatServerEndpoint(addr: string, port: string): string {
    var host := TrimSpace(addr);
    (if ':' in host && !Bracketed(host) then "[" + host + "]" else host) + ":" + port
  }

  /** net.JoinHostPort */
  function JoinHostPort(host: string, port: string): string {
    if ':' in host then "[" + host + "]:" + port else host + ":" + port
  }

  /** formatRuntimeServerEndpoint, the form sent with "add server". */
  function FormatRuntimeServerEndpoint(host: string, port: int): string {
    JoinHostPort(StripBrackets(TrimSpace(host)), Itoa(port))
  }

  /** HAProxy's reading of an endpoint: the port follows the last colon, and brackets around
      the address are not part of it. */
  function ReadEndpoint(endpoint: string): Option<(string, string)> {
    if ':' !in endpoint then None
    else
      var k := LastColon(endpoint);
      Some((StripBrackets(endpoint[..k]), endpoint[k + 1..]))
  }

  function LastColon(s: string): (k: nat)
    requires ':' in s
    ensures k < |s| && s[k] == ':' && ':' !in s[k + 1..]
  {
    if s[|s| - 1] == ':' then |s| - 1 else LastColon(s[..|s| - 1])
  }

  /** Addresses that neither formatter alters, apart from the brackets it adds itself. */
  predicate PlainAddress(host: string) {
    TrimSpace(host) == host && !Bracketed(host)
  }

  /** The address parser never decides the formatted text: an IPv6 literal always has a colon
      and never a bracket, so the textual test brackets it anyway. */
  lemma AddressParsingIsRedundant(addr: string, port: string, isIPv6Literal: string -> bool)
    requires forall h :: isIPv6Literal(h) ==> ':' in h && '[' !in h && ']' !in h
    ensures FormatServerEndpointWith(addr, port, isIPv6Literal) == FormatServerEndpoint(addr, port)
  {
    var host := TrimSpace(addr);
    if isIPv6Literal(host) {
      assert host[0] != '[';
    }
  }

  lemma ReadJoined(host: string, port: string)
    requires ':' !in port
    ensures ReadEndpoint(host + ":" + port) == Some((StripBrackets(host), port))
  {
    var e := host + ":" + port;
    assert e[|host|] == ':';
    var k := LastColon(e);
    assert forall i :: |host| < i < |e| ==> e[i] == port[i - |host| - 1];
    assert forall i :: k < i < |e| ==> e[i] == e[k + 1..][i - k - 1];
    assert e[..|host|] == host && e[|host| + 1..] == port;
  }

  lemma BracketsStrip(host: string)
    ensures StripBrackets("[" + host + "]") == host
  {
    assert ("[" + host + "]")[1..|host| + 1] == host;
  }

  lemma ItoaHasNoColon(n: int)
    ensures ':' !in Itoa(n)
  {
    var digits := NatToString(if n < 0 then -n else n);
    assert forall i :: 0 <= i < |digits| ==> IsDigit(digits[i]);
  }

  /** Writing a server line and reading it back gives the same address and port, for
      bracket-free addresses, IPv6 included. */
  lemma ServerEndpointRoundTrip(addr: string, port: string)
    requires PlainAddress(addr)
    requires ':' !in port
    ensures ReadEndpoint(FormatServerEndpoint(addr, port)) == Some((addr, port))
  {
    if ':' in addr {
      BracketsStrip(addr);
      ReadJoined("[" + addr + "]", port);
    } else {
      ReadJoined(addr, port);
    }
  }

  lemma ReadRuntimeEndpoint(host: string, port: int)
    ensures ReadEndpoint(FormatRuntimeServerEndpoint(host, port))
         == Some((var bare := StripBrackets(TrimSpace(host)); if ':' in bare then bare else StripBrackets(bare),
           Itoa(port)))
  {
    hide TrimSpace, Itoa, ReadEndpoint, StripBrackets;
    ItoaHasNoColon(port);
    var bare := StripBrackets(TrimSpace(host));
    if ':' in bare {
      ReadJoined("[" + bare + "]", Itoa(port));
      BracketsStrip(bare);
      assert "[" + bare + "]:" + Itoa(port) == "[" + bare + "]" + ":" + Itoa(port);
    } else {
      ReadJoined(bare, Itoa(port));
    }
  }

  /** HAProxy ends up with exactly the address and port that were asked for if and only if the
      address is plain. */
  lemma RuntimeEndpointRoundTripIffPlain(host: string, port: int)
    ensures ReadEndpoint(FormatRuntimeServerEndpoint(host, port)) == Some((host, Itoa(port))) <==> PlainAddress(host)
  {
    hide FormatRuntimeServerEndpoint, TrimSpace, ReadEndpoint, Itoa;
    ReadRuntimeEndpoint(host, port);
    TrimShortens(host);
  }

  lemma TrimShortens(s: string)
    ensures |TrimSpace(s)| <= |s|
  {
  }

  /** The two formatters write the same text except for a bracketed address without a colon,
      where only the runtime form drops the brackets. */
  lemma FormattersAgreeIff(addr: string, port: int)
    ensures FormatServerEndpoint(addr, Itoa(port)) == FormatRuntimeServerEndpoint(addr, port)
       <==> (Bracketed(TrimSpace(addr)) ==> ':' in TrimSpace(addr))
  {
    hide TrimSpace, Itoa;
    var host := TrimSpace(addr);
    if Bracketed(host) {
      assert host == "[" + StripBrackets(host) + "]";
      assert ':' in host <==> ':' in StripBrackets(host);
      if ':' in host {
        assert host + ":" + Itoa(port) == "[" + StripBrackets(host) + "]:" + Itoa(port);
      } else {
        assert |host + ":" + Itoa(port)| != |StripBrackets(host) + ":" + Itoa(port)|;
      }
    } else if ':' in host {
      assert "[" + host + "]" + ":" + Itoa(port) == "[" + host + "]:" + Itoa(port);
    }
  }

  // ---- The texts themselves ----

  /** Blanks around an address are dropped. In a managed block an address with a colon is bracketed
      unless it is already, and any other is written as it is. */
  lemma ServerEndpointText(lead: string, addr: string, trail: string, port: string)
    requires AllSpace(lead) && AllSpace(trail) && Trimmed(addr)
    ensures ':' !in addr ==> FormatServerEndpoint(lead + addr + trail, port) == addr + ":" + port
    ensures ':' in addr && (addr[0] != '[' || addr[|addr| - 1] != ']') ==>
      FormatServerEndpoint(lead + addr + trail, port) == "[" + addr + "]:" + port
    ensures forall bare :: addr == "[" + bare + "]" ==>
      FormatServerEndpoint(lead + addr + trail, port) == "[" + bare + "]:" + port
  {
    hide TrimSpace;
    TrimSpaceIs(lead, addr, trail);
    assert "[" + addr + "]" + ":" + port == "[" + addr + "]:" + port;
    forall bare | addr == "[" + bare + "]"
      ensures FormatServerEndpoint(lead + addr + trail, port) == "[" + bare + "]:" + port
    {
      assert addr + ":" + port == "[" + bare + "]:" + port;
    }
  }

  /** Over the runtime API brackets go with the blanks, and come back around a colon only. */
  lemma RuntimeEndpointText(lead: string, addr: string, trail: string, port: int)
    requires AllSpace(lead) && AllSpace(trail) && Trimmed(addr)
    ensures ':' !in addr && !(|addr| >= 2 && addr[0] == '[' && addr[|addr| - 1] == ']') ==>
      FormatRuntimeServerEndpoint(lead + addr + trail, port) == addr + ":" + Itoa(port)
    ensures ':' in addr && (addr[0] != '[' || addr[|addr| - 1] != ']') ==>
      FormatRuntimeServerEndpoint(lead + addr + trail, port) == "[" + addr + "]:" + Itoa(port)
    ensures forall bare :: addr == "[" + bare + "]" ==>
      FormatRuntimeServerEndpoint(lead + addr + trail, port)
      == if ':' in bare then "[" + bare + "]:" + Itoa(port) else bare + ":" + Itoa(port)
  {
    hide TrimSpace, Itoa;
    TrimSpaceIs(lead, addr, trail);
    forall bare | addr == "[" + bare + "]" ensures StripBrackets(addr) == bare {
      BracketsStrip(bare);
    }
  }

  /** HAProxy's reading, text by text. */
  lemma ReadingOfText(host: string, port: string)
    requires ':' !in port
    ensures ReadEndpoint("[" + host + "]:" + port) == Some((host, port))
    ensures !(|host| >= 2 && host[0] == '[' && host[|host| - 1] == ']') ==>
      ReadEndpoint(host + ":" + port) == Some((host, port))
    ensures ReadEndpoint(port) == None
  {
    hide ReadEndpoint;
    ReadJoined("[" + host + "]", port);
    BracketsStrip(host);
    assert "[" + host + "]" + ":" + port == "[" + host + "]:" + port;
    ReadJoined(host, port);
    NoColonNoEndpoint(port);
  }

  lemma NoColonNoEndpoint(s: string)
    requires ':' !in s
    ensures ReadEndpoint(s) == None
  {
  }
}
