/** From HAProxy's tables to text and back: what the reader of "show servers state" makes of an
    answer that shows the tables. */
module StateText {
  import opened GoStrings
  import opened Endpoints
  import opened StateBlocks
  import opened ServerState
  import opened HaproxyRuntime

  // ---- An answer that shows the tables ----

  /** The row shows a server of a backend, in the columns of version 1. */
  ghost predicate ShowsServer(line: string, b: string, s: RuntimeServer, adminState: string -> string) {
    exists fields :: StandardRow(line, fields) && IsRowOf(fields, b, s, adminState)
  }

  ghost predicate IsRowOf(fields: seq<string>, b: string, s: RuntimeServer, adminState: string -> string)
    requires |fields| >= 19
  {
    && fields[1] == b && fields[3] == s.name && fields[4] == s.address
    && OperationalState(fields[5]) == s.operationalState && adminState(fields[6]) == s.adminState
    && ParseInt(fields[18]) == s.port
  }

  /** The backend and name that each line shows, if any. */
  type Shown = seq<Option<(string, string)>>

  ghost predicate LineShows(line: string, shown: Option<(string, string)>, backends: map<string, Table>,
      adminState: string -> string) {
    match shown
    case None => Blank(line) || "#" <= line
    case Some((b, n)) => b in backends && n in backends[b] && ShowsServer(line, b, backends[b][n], adminState)
  }

  predicate NoneTwice(shown: Shown) {
    forall i, j :: 0 <= i < j < |shown| && shown[i].Some? ==> shown[i] != shown[j]
  }

  /** Every line shows one server of the tables, or is blank or a comment; none is shown twice
      and none is missing. */
  ghost predicate ShowsTables(data: seq<string>, shown: Shown, backends: map<string, Table>,
      adminState: string -> string) {
    && |shown| == |data|
    && (forall i :: 0 <= i < |data| ==> LineShows(data[i], shown[i], backends, adminState))
    && NoneTwice(shown)
    && forall b, n :: b in backends && n in backends[b] ==> Some((b, n)) in shown
  }

  // ---- Reading it ----

  lemma RowIsRead(line: string, b: string, s: RuntimeServer, adminState: string -> string)
    requires ShowsServer(line, b, s, adminState)
    ensures RuntimeLine(line, adminState) == Some((b, s))
  {
    hide ParseInt, OperationalState, TrimSpace, Split, Fields, Join;
    var fields :| StandardRow(line, fields) && IsRowOf(fields, b, s, adminState);
    RowText(line, fields);
  }

  lemma LineIsRead(line: string, shown: Option<(string, string)>, backends: map<string, Table>,
      adminState: string -> string)
    requires LineShows(line, shown, backends, adminState)
    ensures RuntimeLine(line, adminState)
         == if shown.Some? then Some((shown.value.0, backends[shown.value.0][shown.value.1])) else None
  {
    hide RuntimeLine, ShowsServer;
    match shown
    case None =>
      NoRowIsRead(line, adminState);
    case Some((b, n)) =>
      RowIsRead(line, b, backends[b][n], adminState);
  }

  lemma NoRowIsRead(line: string, adminState: string -> string)
    requires Blank(line) || "#" <= line
    ensures RuntimeLine(line, adminState) == None
  {
    hide RuntimeRow, TrimSpace;
  }

  /** The servers of a backend are those that the lines show, once each. */
  ghost predicate ListsShown(servers: seq<RuntimeServer>, shown: Shown, b: string, t: Table) {
    && DistinctNames(servers)
    && (forall i :: 0 <= i < |servers| ==>
         servers[i].name in t && t[servers[i].name] == servers[i] && Some((b, servers[i].name)) in shown)
    && forall n :: Some((b, n)) in shown ==> exists i :: 0 <= i < |servers| && servers[i].name == n
  }

  lemma {:induction false} ShownAreRead(data: seq<string>, shown: Shown, backends: map<string, Table>,
      adminState: string -> string, b: string)
    requires |shown| == |data| && NoneTwice(shown) && WellNamed(backends)
    requires forall i :: 0 <= i < |data| ==> LineShows(data[i], shown[i], backends, adminState)
    ensures ListsShown(RuntimeServersOf(data, b, adminState), shown, b, TableOf(backends, b))
  {
    hide LineShows, RuntimeLine, ListsShown;
    if data == [] {
      assert ListsShown([], [], b, TableOf(backends, b)) by {
        NothingShown(b, TableOf(backends, b));
      }
    } else {
      var n := |data| - 1;
      ShownAreRead(data[..n], shown[..n], backends, adminState, b);
      LineIsRead(data[n], shown[n], backends, adminState);
      assert shown == shown[..n] + [shown[n]];
      assert shown[n].Some? ==> shown[n].value.0 in backends && shown[n].value.1 in backends[shown[n].value.0] by {
        LineNamesServer(data[n], shown[n], backends, adminState);
      }
      OneMoreShown(RuntimeServersOf(data[..n], b, adminState), shown[..n], shown[n], b, backends);
    }
  }

  lemma LineNamesServer(line: string, shown: Option<(string, string)>, backends: map<string, Table>,
      adminState: string -> string)
    requires LineShows(line, shown, backends, adminState)
    ensures shown.Some? ==> shown.value.0 in backends && shown.value.1 in backends[shown.value.0]
  {
    hide ShowsServer;
  }

  lemma NothingShown(b: string, t: Table)
    ensures ListsShown([], [], b, t)
  {
  }

  lemma OneMoreShown(servers: seq<RuntimeServer>, before: Shown, one: Option<(string, string)>, b: string,
      backends: map<string, Table>)
    requires ListsShown(servers, before, b, TableOf(backends, b)) && NoneTwice(before + [one]) && WellNamed(backends)
    requires one.Some? ==> one.value.0 in backends && one.value.1 in backends[one.value.0]
    ensures var row := if one.Some? then Some((one.value.0, backends[one.value.0][one.value.1])) else None;
            ListsShown(Extend(servers, row, b), before + [one], b, TableOf(backends, b))
  {
    var shown := before + [one];
    if one.Some? && one.value.0 == b {
      var name := one.value.1;
      var after := servers + [backends[b][name]];
      assert forall i :: 0 <= i < |before| ==> shown[i] == before[i] && shown[i] != shown[|before|];
      assert after[|servers|].name == name;
      forall n | Some((b, n)) in shown ensures exists i :: 0 <= i < |after| && after[i].name == n {
        if n != name {
          var i :| 0 <= i < |servers| && servers[i].name == n;
          assert after[i].name == n;
        }
      }
    }
  }

  /** The reader gives back the tables: from any answer that shows them, in any order of rows, it
      makes a full listing of every backend. */
  lemma {:induction false} ShownTablesAreListed(data: seq<string>, shown: Shown, backends: map<string, Table>,
      adminState: string -> string, b: string)
    requires WellNamed(backends) && ShowsTables(data, shown, backends, adminState)
    ensures Lists(RuntimeServersOf(data, b, adminState), TableOf(backends, b))
  {
    hide LineShows, RuntimeServersOf, DistinctNames, NoneTwice;
    ShownAreRead(data, shown, backends, adminState, b);
  }

  /** getServersStateWithBackend, on the proxy's answer to its one call. */
  method ReadServersState(client: Proxy, output: string, ghost shown: Shown, adminState: string -> string)
    returns (r: Result<map<string, seq<RuntimeServer>>, StateError>)
    requires client.Valid() && DataLines(Split(output, '\n')).Ok?
    requires ShowsTables(DataLines(Split(output, '\n')).value, shown, client.backends, adminState)
    ensures r.Ok? && forall b :: Lists(Lookup(r.value, b), client.Servers(b))
  {
    hide Split, DataLines, ShowsTables, RuntimeServersOf, Lists, TableOf, WellNamed;
    ghost var data := DataLines(Split(output, '\n')).value;
    r := ParseRuntimeServersWithBackend(output, adminState);
    forall b ensures Lists(Lookup(r.value, b), client.Servers(b)) {
      ShownTablesAreListed(data, shown, client.backends, adminState, b);
    }
  }

  // ---- Writing it ----

  function OperationalCode(state: string): string {
    if state == "down" then "0" else if state == "stopping" then "3" else if state == "up" then "2" else "-"
  }

  function PortText(port: Option<int>): string {
    if port.Some? then Itoa(port.value) else "-"
  }

  /** The first 19 columns of version 1; the ones that are not read hold a dash. */
  function RowFields(b: string, s: RuntimeServer, adminCode: string -> string): (fields: seq<string>)
    ensures |fields| == 19
  {
    ["-", b, "-", s.name, s.address, OperationalCode(s.operationalState), adminCode(s.adminState)]
    + ["-", "-", "-", "-", "-", "-", "-", "-", "-", "-", "-", PortText(s.port)]
  }

  /** What can stand in a column: words, known states and 64-bit ports. */
  predicate Showable(b: string, s: RuntimeServer, adminState: string -> string, adminCode: string -> string) {
    && Word(b) && Word(s.name) && Word(s.address)
    && s.operationalState in {"down", "stopping", "up", ""}
    && Word(adminCode(s.adminState)) && adminState(adminCode(s.adminState)) == s.adminState
    && (s.port.Some? ==> -0x8000_0000_0000_0000 <= s.port.value < 0x8000_0000_0000_0000)
  }

  type Listing = seq<(string, RuntimeServer)>

  function RowLines(rows: Listing, adminCode: string -> string): seq<string> {
    seq(|rows|, i requires 0 <= i < |rows| => Join(RowFields(rows[i].0, rows[i].1, adminCode), ' '))
  }

  /** The version line, the header, the rows and an empty last line. */
  function AnswerLines(header: string, rows: Listing, adminCode: string -> string): seq<string> {
    ["1", header] + RowLines(rows, adminCode) + [""]
  }

  function Answer(header: string, rows: Listing, adminCode: string -> string): string {
    Join(AnswerLines(header, rows, adminCode), '\n')
  }

  function ShownRows(rows: Listing): Shown {
    [None] + seq(|rows|, i requires 0 <= i < |rows| => Some((rows[i].0, rows[i].1.name))) + [None]
  }

  /** The rows go through the tables, one row a server, in any order. */
  ghost predicate IsListing(rows: Listing, backends: map<string, Table>) {
    && (forall i :: 0 <= i < |rows| ==>
         rows[i].0 in backends && rows[i].1.name in backends[rows[i].0] &&
           backends[rows[i].0][rows[i].1.name] == rows[i].1)
    && (forall i, j :: 0 <= i < j < |rows| ==> (rows[i].0, rows[i].1.name) != (rows[j].0, rows[j].1.name))
    && forall b, n :: b in backends && n in backends[b] ==>
      exists i :: 0 <= i < |rows| && rows[i].0 == b && rows[i].1.name == n
  }

  ghost predicate AllShowable(rows: Listing, adminState: string -> string, adminCode: string -> string) {
    forall i :: 0 <= i < |rows| ==> Showable(rows[i].0, rows[i].1, adminState, adminCode)
  }

  lemma NumbersAreWords(n: int)
    ensures Word(Itoa(n))
  {
    if n < 0 {
      var digits := NatToString(-n);
      assert forall i :: 0 < i < |Itoa(n)| ==> Itoa(n)[i] == digits[i - 1];
    }
  }

  lemma RowIsShown(b: string, s: RuntimeServer, adminState: string -> string, adminCode: string -> string)
    requires Showable(b, s, adminState, adminCode)
    ensures ShowsServer(Join(RowFields(b, s, adminCode), ' '), b, s, adminState)
  {
    hide ParseInt, Itoa, Join;
    var fields := RowFields(b, s, adminCode);
    assert Word(PortText(s.port)) && ParseInt(PortText(s.port)) == s.port by {
      if s.port.Some? {
        NumbersAreWords(s.port.value);
        ParseIntItoa(s.port.value);
      } else {
        DashIsNoNumber();
      }
    }
    assert OperationalState(OperationalCode(s.operationalState)) == s.operationalState;
    assert Word("-") && Word(OperationalCode(s.operationalState));
    assert StandardRow(Join(fields, ' '), fields) && IsRowOf(fields, b, s, adminState);
  }

  lemma DashIsNoNumber()
    ensures ParseInt("-") == None
  {
    assert ("-")[1..] == "";
  }

  lemma {:induction false} JoinedWordsHaveNo(words: seq<string>, c: char)
    requires forall i :: 0 <= i < |words| ==> Word(words[i])
    requires IsSpace(c) && c != ' '
    ensures c !in Join(words, ' ')
  {
    if |words| > 1 {
      JoinedWordsHaveNo(words[1..], c);
    }
  }

  /** A row is one line. */
  lemma RowIsOneLine(b: string, s: RuntimeServer, adminState: string -> string, adminCode: string -> string, c: char)
    requires Showable(b, s, adminState, adminCode) && IsSpace(c) && c != ' '
    ensures c !in Join(RowFields(b, s, adminCode), ' ')
  {
    hide Join, Itoa;
    if s.port.Some? {
      NumbersAreWords(s.port.value);
    }
    JoinedWordsHaveNo(RowFields(b, s, adminCode), c);
  }

  lemma AnswerIsCut(header: string, rows: Listing, adminState: string -> string, adminCode: string -> string)
    requires AllShowable(rows, adminState, adminCode) && '\n' !in header
    ensures Split(Answer(header, rows, adminCode), '\n') == AnswerLines(header, rows, adminCode)
  {
    hide Join, Split, Showable, RowFields;
    var lines := AnswerLines(header, rows, adminCode);
    forall i | 0 <= i < |lines| ensures '\n' !in lines[i] {
      if 2 <= i < |lines| - 1 {
        RowIsOneLine(rows[i - 2].0, rows[i - 2].1, adminState, adminCode, '\n');
      }
    }
    SplitJoin(lines, '\n');
  }

  lemma VersionOneIsSupported()
    ensures SupportedVersion("1") && !Blank("1")
  {
    TrimSpaceOfTrimmed("1");
    assert ("1")[..0] == "" && DigitsValue("1") == 1;
  }

  /** The lines after the version line, and what each of them shows. */
  function DataOf(header: string, rows: Listing, adminCode: string -> string): (data: seq<string>)
    ensures |data| == |rows| + 2
  {
    [header] + RowLines(rows, adminCode) + [""]
  }

  lemma AnswerHasData(header: string, rows: Listing, adminState: string -> string, adminCode: string -> string)
    requires AllShowable(rows, adminState, adminCode) && '\n' !in header
    ensures DataLines(Split(Answer(header, rows, adminCode), '\n')) == Ok(DataOf(header, rows, adminCode))
  {
    hide Split, Answer, SupportedVersion, Blank, Showable, RowLines;
    AnswerIsCut(header, rows, adminState, adminCode);
    VersionOneIsSupported();
    assert AnswerLines(header, rows, adminCode)[1..] == DataOf(header, rows, adminCode);
  }

  lemma DataShowRows(header: string, rows: Listing, backends: map<string, Table>,
      adminState: string -> string, adminCode: string -> string, i: nat)
    requires "#" <= header && IsListing(rows, backends) && AllShowable(rows, adminState, adminCode) && i < |rows| + 2
    ensures LineShows(DataOf(header, rows, adminCode)[i], ShownRows(rows)[i], backends, adminState)
  {
    hide Showable, RowFields, ShowsServer, Join;
    if 0 < i <= |rows| {
      RowIsShown(rows[i - 1].0, rows[i - 1].1, adminState, adminCode);
    }
  }

  lemma ListingShowsAll(rows: Listing, backends: map<string, Table>)
    requires IsListing(rows, backends)
    ensures NoneTwice(ShownRows(rows))
    ensures forall b, n :: b in backends && n in backends[b] ==> Some((b, n)) in ShownRows(rows)
  {
    var shown := ShownRows(rows);
    forall b, n | b in backends && n in backends[b] ensures Some((b, n)) in shown {
      var i :| 0 <= i < |rows| && rows[i].0 == b && rows[i].1.name == n;
      assert shown[i + 1] == Some((b, n));
    }
  }

  /** Tables of words can be shown: written out and cut, they make an answer as the reader's lemma asks for. */
  lemma {:induction false} AnswerShowsTables(header: string, rows: Listing, backends: map<string, Table>,
      adminState: string -> string, adminCode: string -> string)
    requires "#" <= header && '\n' !in header
    requires IsListing(rows, backends) && AllShowable(rows, adminState, adminCode)
    ensures var lines := DataLines(Split(Answer(header, rows, adminCode), '\n'));
            lines.Ok? && ShowsTables(lines.value, ShownRows(rows), backends, adminState)
  {
    hide Split, Answer, DataLines, DataOf, LineShows, NoneTwice, IsListing, AllShowable;
    AnswerHasData(header, rows, adminState, adminCode);
    ListingShowsAll(rows, backends);
    forall i | 0 <= i < |rows| + 2
      ensures LineShows(DataOf(header, rows, adminCode)[i], ShownRows(rows)[i], backends, adminState)
    {
      DataShowRows(header, rows, backends, adminState, adminCode, i);
    }
  }

  /** The round trip of the tables through the answer's text. */
  lemma {:induction false} TablesRoundTrip(header: string, rows: Listing, backends: map<string, Table>,
      adminState: string -> string, adminCode: string -> string, b: string)
    requires "#" <= header && '\n' !in header && WellNamed(backends)
    requires IsListing(rows, backends) && AllShowable(rows, adminState, adminCode)
    ensures var lines := DataLines(Split(Answer(header, rows, adminCode), '\n'));
            lines.Ok? && CurrentMap(RuntimeServersOf(lines.value, b, adminState)) == TableOf(backends, b)
  {
    hide Split, Answer, DataLines, ShowsTables, RuntimeServersOf, CurrentMap, Lists, TableOf;
    AnswerShowsTables(header, rows, backends, adminState, adminCode);
    var data := DataLines(Split(Answer(header, rows, adminCode), '\n')).value;
    ShownTablesAreListed(data, ShownRows(rows), backends, adminState, b);
    CurrentMapOfListing(RuntimeServersOf(data, b, adminState), TableOf(backends, b));
  }

  // ---- On to the config file ----

  /** The whole way: from the proxy's tables over the answer, the state file and the rewritten
      config, a block holds the usable servers of its backend's table. */
  lemma {:induction false} BlocksMirrorTables(output: string, shown: Shown, backends: map<string, Table>,
      adminState: string -> string, servers: Servers, config: string, i: nat)
    requires NoCarriageReturns(Split(output, '\n'))
    requires DataLines(Split(output, '\n')).Ok? && StandardData(DataLines(Split(output, '\n')).value)
    requires WellNamed(backends) && ShowsTables(DataLines(Split(output, '\n')).value, shown, backends, adminState)
    requires DataLines(ScanLines(StateFileText(output))).Ok? ==>
      forall b :: ServersFor(servers, b) == FileServersOf(DataLines(ScanLines(StateFileText(output))).value, b)
    requires forall b, k :: b in servers && 0 <= k < |servers[b]| ==> !Bracketed(servers[b][k].addr)
    requires Rewrite(config, servers).Ok?
    requires i < |Split(Rewrite(config, servers).value.0, '\n')| &&
      IsBegin(Split(Rewrite(config, servers).value.0, '\n')[i])
    ensures var lines := Split(Rewrite(config, servers).value.0, '\n');
      exists held, listed ::
        && BlockHolds(lines, i, held) && Lists(listed, TableOf(backends, BackendOf(lines[i])))
        && EntryFacts(held) == UsableFacts(listed)
  {
    hide Split, ScanLines, DataLines, IsBegin, BackendOf, Rewrite, BlockHolds, FileServersOf, RuntimeServersOf;
    hide StandardData, UsableFacts, EntryFacts, ShowsTables, Lists, TableOf, NoCarriageReturns, Bracketed, WellNamed;
    var b := BackendOf(Split(Rewrite(config, servers).value.0, '\n')[i]);
    var data := DataLines(Split(output, '\n')).value;
    ManagedBlocksMirrorRuntime(output, adminState, servers, config, i);
    ShownTablesAreListed(data, shown, backends, adminState, b);
    var held, listed := ServersFor(servers, b), RuntimeServersOf(data, b, adminState);
    assert EntryFacts(held) == UsableFacts(listed);
  }
}
