/** The two readers of "show servers state" text: one for the runtime API's answer, one for
    the file that HAProxy loads on start. */
module ServerState {
  import opened GoStrings
  import opened Endpoints
  import opened StateBlocks

  /** A server as the runtime API client reports it; an unreadable port is absent. */
  datatype RuntimeServer = RuntimeServer(
    name: string,
    address: string,
    port: Option<int>,
    adminState: string,
    operationalState: string)

  datatype StateError = NoVersionLine | BadVersion

  /** validateHaproxyServerStateSchemaVersion */
  predicate SupportedVersion(raw: string) {
    ParseInt(TrimSpace(raw)) == Some(1)
  }

  predicate Blank(line: string) {
    TrimSpace(line) == ""
  }

  /** The lines after the version line, which is the first line that is not blank. */
  function DataLines(lines: seq<string>): Result<seq<string>, StateError> {
    if lines == [] then Err(NoVersionLine)
    else if Blank(lines[0]) then DataLines(lines[1..])
    else if SupportedVersion(lines[0]) then Ok(lines[1..])
    else Err(BadVersion)
  }

  // ---- The runtime reader ----

  /** srv_op_state, as the runtime reader names it: never "maint". */
  function OperationalState(code: string): string {
    if code == "0" then "down"
    else if code == "3" then "stopping"
    else if code == "1" || code == "2" then "up"
    else ""
  }

  /** parseRuntimeServerWithBackend; `adminState` stands for the client library's decoding. */
  function RuntimeRow(line: string, adminState: string -> string): Option<(string, RuntimeServer)> {
    var fields := Split(line, ' ');
    if |fields| < 19 then None
    else
      Some((fields[1],
        RuntimeServer(fields[3], fields[4], ParseInt(fields[18]), adminState(fields[6]), OperationalState(fields[5]))))
  }

  /** A data line's backend and server; comments, blanks and malformed rows have none. */
  function RuntimeLine(line: string, adminState: string -> string): Option<(string, RuntimeServer)> {
    if Blank(line) || "#" <= line || TrimSpace(line) == "1" then None
    else
      var row := RuntimeRow(line, adminState);
      if row.Some? && row.value.0 != "" then row else None
  }

  /** Appends a row to the servers of its own backend. */
  function Extend<T>(servers: seq<T>, row: Option<(string, T)>, backend: string): seq<T> {
    if row.Some? && row.value.0 == backend then servers + [row.value.1] else servers
  }

  /** The servers of a backend, in the order of their lines. */
  function RuntimeServersOf(lines: seq<string>, backend: string, adminState: string -> string): seq<RuntimeServer> {
    if lines == [] then []
    else Extend(RuntimeServersOf(lines[..|lines| - 1], backend, adminState),
      RuntimeLine(lines[|lines| - 1], adminState), backend)
  }

  function Lookup<T>(m: map<string, seq<T>>, key: string): seq<T> {
    if key in m then m[key] else []
  }

  /** parseRuntimeServersWithBackend */
  method ParseRuntimeServersWithBackend(output: string, adminState: string -> string)
    returns (r: Result<map<string, seq<RuntimeServer>>, StateError>)
    ensures DataLines(Split(output, '\n')).Err? ==> r == Err(DataLines(Split(output, '\n')).error)
    ensures DataLines(Split(output, '\n')).Ok? ==> r.Ok?
    ensures r.Ok? ==>
      forall b :: Lookup(r.value, b) == RuntimeServersOf(DataLines(Split(output, '\n')).value, b, adminState)
    ensures r.Ok? ==> forall b :: b in r.value ==> r.value[b] != []
  {
    hide SupportedVersion, Blank, TrimSpace, RuntimeRow, RuntimeLine, RuntimeServersOf, DataLines, Split;
    var lines := Split(output, '\n');
    var first := 0;
    assert lines[0..] == lines;
    while first < |lines| && Blank(lines[first])
      invariant 0 <= first <= |lines|
      invariant DataLines(lines) == DataLines(lines[first..])
    {
      DataLinesUnfold(lines, first);
      first := first + 1;
    }
    DataLinesUnfold(lines, first);
    if first == |lines| {
      return Err(NoVersionLine);
    }
    if !SupportedVersion(lines[first]) {
      return Err(BadVersion);
    }
    var data := lines[first + 1..];
    var result: map<string, seq<RuntimeServer>> := map[];
    NoRuntimeServers(data, adminState);
    for i := 0 to |data|
      invariant forall b :: Lookup(result, b) == RuntimeServersOf(data[..i], b, adminState)
      invariant forall b :: b in result ==> result[b] != []
    {
      var line := data[i];
      RuntimeServersGrow(data, i, adminState);
      var row := RuntimeLine(line, adminState);
      ghost var before := result;
      if row.Some? {
        var (backend, server) := row.value;
        result := result[backend := Lookup(result, backend) + [server]];
      }
      assert forall b :: Lookup(result, b) == Extend(Lookup(before, b), row, b);
    }
    assert data[..|data|] == data;
    return Ok(result);
  }

  lemma DataLinesUnfold(lines: seq<string>, i: nat)
    requires i <= |lines|
    ensures DataLines(lines[i..])
         == if i == |lines| then Err(NoVersionLine)
            else if Blank(lines[i]) then DataLines(lines[i + 1..])
            else if SupportedVersion(lines[i]) then Ok(lines[i + 1..])
            else Err(BadVersion)
  {
    hide Blank, SupportedVersion;
    if i < |lines| {
      assert lines[i..][1..] == lines[i + 1..];
    }
  }

  lemma NoRuntimeServers(data: seq<string>, adminState: string -> string)
    ensures forall b :: RuntimeServersOf(data[..0], b, adminState) == []
  {
  }

  /** How a line extends each backend's servers. */
  lemma RuntimeServersGrow(data: seq<string>, i: nat, adminState: string -> string)
    requires i < |data|
    ensures forall b :: RuntimeServersOf(data[..i + 1], b, adminState)
                     == Extend(RuntimeServersOf(data[..i], b, adminState), RuntimeLine(data[i], adminState), b)
  {
    hide RuntimeLine, Extend;
    assert data[..i + 1][..i] == data[..i];
  }

  // ---- The file reader ----

  /** The positions of the four columns that matter. */
  datatype Columns = Columns(beName: nat, srvName: nat, srvAddr: nat, srvPort: nat)

  const DEFAULT_COLUMNS := Columns(1, 3, 4, 18)

  /** The last position of a name, or the default. */
  function ColumnIndex(names: seq<string>, name: string, default: nat): nat {
    if names == [] then default
    else if names[|names| - 1] == name then |names| - 1
    else ColumnIndex(names[..|names| - 1], name, default)
  }

  function HeaderNames(line: string): seq<string> {
    Fields(TrimPrefix(TrimSpace(line), "#"))
  }

  function HeaderColumns(line: string): Columns {
    var names := HeaderNames(line);
    Columns(
      ColumnIndex(names, "be_name", 1), ColumnIndex(names, "srv_name", 3),
      ColumnIndex(names, "srv_addr", 4), ColumnIndex(names, "srv_port", 18))
  }

  predicate IsComment(line: string) {
    "#" <= TrimSpace(line)
  }

  /** Only the first comment is a header. */
  function ColumnsAfter(lines: seq<string>): Columns {
    if lines == [] then DEFAULT_COLUMNS
    else if IsComment(lines[0]) then HeaderColumns(lines[0])
    else ColumnsAfter(lines[1..])
  }

  function MaxColumn(c: Columns): nat {
    var m := if c.beName > c.srvName then c.beName else c.srvName;
    var n := if c.srvAddr > c.srvPort then c.srvAddr else c.srvPort;
    if m > n then m else n
  }

  predicate UsablePort(port: Option<int>) {
    port.Some? && 1 <= port.value <= 65535
  }

  /** One row of the file, or nothing when it has no usable address and port. */
  function FileRow(fields: seq<string>, c: Columns): Option<(string, Entry)> {
    if |fields| <= MaxColumn(c) then None
    else
      var addr, port := fields[c.srvAddr], TrimSpace(fields[c.srvPort]);
      if addr == "" || addr == "-" || !UsablePort(ParseInt(port)) then None
      else Some((fields[c.beName], Entry(fields[c.srvName], addr, port)))
  }

  function FileLine(line: string, c: Columns): Option<(string, Entry)> {
    if Blank(line) || IsComment(line) then None else FileRow(Fields(line), c)
  }

  function FileServersOf(lines: seq<string>, backend: string): seq<Entry> {
    if lines == [] then []
    else
      var before := lines[..|lines| - 1];
      Extend(FileServersOf(before, backend), FileLine(lines[|lines| - 1], ColumnsAfter(before)), backend)
  }

  /** bufio.ScanLines: no empty last line, no carriage return at the end of a line. */
  function ScanLines(text: string): seq<string> {
    var parts := Split(text, '\n');
    var lines := if parts[|parts| - 1] == "" then parts[..|parts| - 1] else parts;
    seq(|lines|, i requires 0 <= i < |lines| => TrimSuffix(lines[i], "\r"))
  }

  predicate HasComment(lines: seq<string>) {
    exists i :: 0 <= i < |lines| && IsComment(lines[i])
  }

  lemma {:induction false} ColumnsAfterAppend(lines: seq<string>, line: string)
    ensures ColumnsAfter(lines + [line])
         == if HasComment(lines) then ColumnsAfter(lines) else if IsComment(line) then HeaderColumns(line)
           else DEFAULT_COLUMNS
    ensures !HasComment(lines) ==> ColumnsAfter(lines) == DEFAULT_COLUMNS
    ensures HasComment(lines + [line]) <==> HasComment(lines) || IsComment(line)
  {
    hide IsComment, HeaderColumns;
    assert forall i :: 0 <= i < |lines| ==> (lines + [line])[i] == lines[i];
    assert (lines + [line])[|lines|] == line;
    if lines != [] {
      assert (lines + [line])[1..] == lines[1..] + [line];
      ColumnsAfterAppend(lines[1..], line);
      if !IsComment(lines[0]) {
        if i :| 0 <= i < |lines| && IsComment(lines[i]) {
          assert lines[1..][i - 1] == lines[i];
        }
      }
    }
  }

  /** How a line extends each backend's entries. */
  lemma FileServersGrow(data: seq<string>, line: string)
    ensures forall b ::
      FileServersOf(data + [line], b) == Extend(FileServersOf(data, b), FileLine(line, ColumnsAfter(data)), b)
  {
    hide FileLine, ColumnsAfter, Extend;
    assert (data + [line])[..|data|] == data;
  }

  lemma NoFileServers()
    ensures forall b :: FileServersOf([], b) == []
    ensures ColumnsAfter([]) == DEFAULT_COLUMNS && !HasComment([])
  {
  }

  /** parseServerStateFileByBackend, after the file has been read. */
  method ParseServerStateFileByBackend(text: string)
    returns (r: Result<Servers, StateError>)
    ensures DataLines(ScanLines(text)).Err? ==> r == Err(DataLines(ScanLines(text)).error)
    ensures DataLines(ScanLines(text)).Ok? ==> r.Ok?
    ensures r.Ok? ==> forall b :: ServersFor(r.value, b) == FileServersOf(DataLines(ScanLines(text)).value, b)
  {
    hide SupportedVersion, TrimSpace, FileRow, HeaderColumns, HasComment, Fields, ScanLines, DataLines;
    hide FileServersOf, ColumnsAfter;
    var lines := ScanLines(text);
    var result: Servers := map[];
    var columns := DEFAULT_COLUMNS;
    var headerParsed := false;
    var versionValidated := false;
    ghost var data: seq<string> := [];
    NoFileServers();
    assert lines[0..] == lines;
    for i := 0 to |lines|
      invariant !versionValidated ==> DataLines(lines) == DataLines(lines[i..]) && data == []
      invariant versionValidated ==> DataLines(lines) == Ok(data + lines[i..])
      invariant forall b :: ServersFor(result, b) == FileServersOf(data, b)
      invariant columns == ColumnsAfter(data)
      invariant headerParsed == HasComment(data)
    {
      var line := lines[i];
      var trimmedLine := TrimSpace(line);
      if !versionValidated {
        DataLinesUnfold(lines, i);
        if trimmedLine == "" {
          continue;
        }
        if !SupportedVersion(line) {
          return Err(BadVersion);
        }
        versionValidated := true;
        assert data + lines[i + 1..] == lines[i + 1..];
        continue;
      }
      assert data + lines[i..] == data + [line] + lines[i + 1..];
      ColumnsAfterAppend(data, line);
      FileServersGrow(data, line);
      ghost var before := data;
      data := data + [line];
      if trimmedLine == "" {
        continue;
      }
      if "#" <= trimmedLine {
        if !headerParsed {
          columns := HeaderColumns(line);
          headerParsed := true;
        }
        continue;
      }
      var row := FileRow(Fields(line), columns);
      if row.Some? {
        result := result[row.value.0 := ServersFor(result, row.value.0) + [row.value.1]];
      }
    }
    DataLinesUnfold(lines, |lines|);
    assert lines[|lines|..] == [] && data + [] == data;
    if !versionValidated {
      return Err(NoVersionLine);
    }
    return Ok(result);
  }

  /** The file reader yields words only, as the block writer needs. */
  lemma {:induction false} FileServersClean(lines: seq<string>, backend: string)
    ensures forall i :: 0 <= i < |FileServersOf(lines, backend)| ==> CleanEntry(FileServersOf(lines, backend)[i])
  {
    hide CleanEntry, FileLine, ColumnsAfter;
    if lines != [] {
      var before := lines[..|lines| - 1];
      FileServersClean(before, backend);
      FileLineClean(lines[|lines| - 1], ColumnsAfter(before));
    }
  }

  lemma FileLineClean(line: string, c: Columns)
    ensures FileLine(line, c).Some? ==> CleanEntry(FileLine(line, c).value.1)
  {
    var fields := Fields(line);
    FieldsAreWords(line);
    if |fields| > MaxColumn(c) {
      TrimSpaceOfTrimmed(fields[c.srvPort]);
    }
  }

  lemma {:induction false} FieldsAreWords(s: string)
    ensures forall i :: 0 <= i < |Fields(s)| ==> Word(Fields(s)[i])
    decreases |s|
  {
    var t := TrimLeftSpace(s);
    if t != "" {
      var n := WordLength(t);
      WordLengthIsWord(t);
      FieldsAreWords(t[n..]);
    }
  }

  lemma {:induction false} WordLengthIsWord(s: string)
    ensures NoSpace(s[..WordLength(s)])
  {
    if s != "" && !IsSpace(s[0]) {
      WordLengthIsWord(s[1..]);
      var n := WordLength(s);
      assert forall i :: 0 < i < n ==> s[..n][i] == s[1..][..n - 1][i - 1];
    }
  }

  // ---- Agreement ----

  /** A data row: at least 19 words separated by single spaces, not a comment. */
  ghost predicate StandardRow(line: string, fields: seq<string>) {
    && |fields| >= 19
    && (forall i :: 0 <= i < |fields| ==> Word(fields[i]))
    && fields[0][0] != '#'
    && line == Join(fields, ' ')
  }

  /** A header naming the four columns at their version 1 places, and nowhere later. */
  ghost predicate StandardHeader(line: string) {
    "#" <= line && HeaderColumns(line) == DEFAULT_COLUMNS
  }

  ghost predicate StandardData(lines: seq<string>) {
    && lines != [] && StandardHeader(lines[0])
    && forall i :: 0 < i < |lines| ==> Blank(lines[i]) || exists fields :: StandardRow(lines[i], fields)
  }

  /** What both readers know about a server. */
  type ServerFacts = (string, string, Option<int>)

  function EntryFacts(es: seq<Entry>): seq<ServerFacts> {
    seq(|es|, i requires 0 <= i < |es| => (es[i].name, es[i].addr, ParseInt(es[i].port)))
  }

  predicate Usable(s: RuntimeServer) {
    s.address != "-" && UsablePort(s.port)
  }

  function UsableFacts(servers: seq<RuntimeServer>): seq<ServerFacts> {
    if servers == [] then []
    else
      var s := servers[|servers| - 1];
      UsableFacts(servers[..|servers| - 1]) + (if Usable(s) then [(s.name, s.address, s.port)] else [])
  }

  /** On standard text both readers see the same servers of every backend, in the same order,
      once those without a usable address and port are set aside. */
  lemma {:induction false} ReadersAgree(lines: seq<string>, backend: string, adminState: string -> string)
    requires StandardData(lines)
    ensures EntryFacts(FileServersOf(lines, backend)) == UsableFacts(RuntimeServersOf(lines, backend, adminState))
    decreases |lines|
  {
    hide FileLine, RuntimeLine, HeaderColumns, StandardRow, Blank, ColumnsAfter, Extend;
    var before, line := lines[..|lines| - 1], lines[|lines| - 1];
    if |lines| == 1 {
      HeaderLine(line, backend, adminState);
    } else {
      assert StandardData(before);
      ReadersAgree(before, backend, adminState);
      StandardColumns(before);
      if Blank(line) {
        BlankLine(line, adminState);
      } else {
        var fields :| StandardRow(line, fields);
        RowsAgree(line, fields, adminState);
      }
      ExtendAgrees(FileServersOf(before, backend), FileLine(line, DEFAULT_COLUMNS),
        RuntimeServersOf(before, backend, adminState), RuntimeLine(line, adminState), backend);
    }
  }

  lemma StandardColumns(lines: seq<string>)
    requires StandardData(lines)
    ensures ColumnsAfter(lines) == DEFAULT_COLUMNS
  {
    hide HeaderColumns;
    TrimSpaceKeepsHash(lines[0]);
  }

  lemma TrimSpaceKeepsHash(line: string)
    requires "#" <= line
    ensures IsComment(line) && !Blank(line)
  {
    assert line[0] == '#';
    var t := TrimLeftSpace(line);
    assert t == line;
    TrimRightKeepsFirst(line);
  }

  lemma {:induction false} TrimRightKeepsFirst(s: string)
    requires s != "" && !IsSpace(s[0])
    ensures TrimRightSpace(s) != "" && TrimRightSpace(s)[0] == s[0]
  {
    if IsSpace(s[|s| - 1]) {
      TrimRightKeepsFirst(s[..|s| - 1]);
    }
  }

  lemma HeaderLine(line: string, backend: string, adminState: string -> string)
    requires "#" <= line
    ensures FileServersOf([line], backend) == [] && RuntimeServersOf([line], backend, adminState) == []
  {
    hide HeaderColumns, RuntimeRow, FileRow, TrimSpace;
    TrimSpaceKeepsHash(line);
    assert [line][..0] == [];
  }

  lemma BlankLine(line: string, adminState: string -> string)
    requires Blank(line)
    ensures FileLine(line, DEFAULT_COLUMNS) == None && RuntimeLine(line, adminState) == None
  {
  }

  lemma {:induction false} JoinEnds(words: seq<string>)
    requires words != [] && forall i :: 0 <= i < |words| ==> words[i] != ""
    ensures |Join(words, ' ')| >= |words|
    ensures Join(words, ' ')[0] == words[0][0]
    ensures Join(words, ' ')[|Join(words, ' ')| - 1] == words[|words| - 1][|words[|words| - 1]| - 1]
  {
    if |words| > 1 {
      JoinEnds(words[1..]);
    }
  }

  /** The file's row is the runtime's row, if that is usable. */
  ghost predicate SameRow(file: Option<(string, Entry)>, runtime: Option<(string, RuntimeServer)>) {
    if runtime.None? || !Usable(runtime.value.1) then file.None?
    else
      && file.Some? && file.value.0 == runtime.value.0
      && file.value.1.name == runtime.value.1.name && file.value.1.addr == runtime.value.1.address
      && ParseInt(file.value.1.port) == runtime.value.1.port
  }

  lemma RowsAgree(line: string, fields: seq<string>, adminState: string -> string)
    requires StandardRow(line, fields)
    ensures SameRow(FileLine(line, DEFAULT_COLUMNS), RuntimeLine(line, adminState))
  {
    hide ParseInt, OperationalState, TrimSpace, Split, Fields, Join;
    RowText(line, fields);
  }

  /** Both readers cut a standard row into the same fields. */
  lemma RowText(line: string, fields: seq<string>)
    requires StandardRow(line, fields)
    ensures TrimSpace(line) == line && |line| >= 19 && line[0] != '#'
    ensures Fields(line) == fields && Split(line, ' ') == fields
    ensures TrimSpace(fields[18]) == fields[18]
  {
    hide TrimSpace, Split, Fields, Join;
    JoinEnds(fields);
    TrimSpaceOfTrimmed(line);
    FieldsJoin(fields);
    SplitJoin(fields, ' ');
    TrimSpaceOfTrimmed(fields[18]);
  }

  lemma ExtendAgrees(es: seq<Entry>, file: Option<(string, Entry)>, rs: seq<RuntimeServer>,
      runtime: Option<(string, RuntimeServer)>, backend: string)
    requires EntryFacts(es) == UsableFacts(rs) && SameRow(file, runtime)
    ensures EntryFacts(Extend(es, file, backend)) == UsableFacts(Extend(rs, runtime, backend))
  {
    hide ParseInt, Usable;
    if runtime.Some? && runtime.value.0 == backend {
      assert (rs + [runtime.value.1])[..|rs|] == rs;
      if file.Some? {
        assert EntryFacts(es + [file.value.1]) == EntryFacts(es) + EntryFacts([file.value.1]);
      }
    }
  }

  // ---- From the runtime's answer to the managed blocks ----

  /** writeGlobalServerStateFile: the runtime's answer, ending in a newline. */
  function StateFileText(output: string): string {
    if HasSuffix(output, "\n") then output else output + "\n"
  }

  /** The file is the answer with a newline at its end, which is added only if it is missing. */
  lemma StateFileEnds(output: string)
    ensures exists front :: StateFileText(output) == front + "\n"
    ensures StateFileText(output) == output || StateFileText(output) == output + "\n"
    ensures (exists front :: output == front + "\n") ==> StateFileText(output) == output
  {
    HasSuffixIff(output, "\n");
    if HasSuffix(output, "\n") {
      assert StateFileText(output) == output[..|output| - 1] + "\n";
    } else {
      assert StateFileText(output) == output + "\n";
    }
  }

  lemma {:induction false} SplitEndsInNewline(s: string)
    ensures Split(s + "\n", '\n') == Split(s, '\n') + [""]
  {
    if s == "" {
      assert s + "\n" == "\n" && ("\n")[1..] == "";
    } else {
      assert (s + "\n")[1..] == s[1..] + "\n";
      SplitEndsInNewline(s[1..]);
    }
  }

  ghost predicate NoCarriageReturns(lines: seq<string>) {
    forall i :: 0 <= i < |lines| ==> !HasSuffix(lines[i], "\r")
  }

  /** The file's lines are the answer's lines, but for an empty last one. */
  lemma StateFileLines(output: string)
    requires NoCarriageReturns(Split(output, '\n'))
    ensures var lines := ScanLines(StateFileText(output));
            Split(output, '\n') == lines || Split(output, '\n') == lines + [""]
  {
    hide Split;
    var all := Split(output, '\n');
    if HasSuffix(output, "\n") {
      var front := output[..|output| - 1];
      assert output == front + "\n";
      SplitEndsInNewline(front);
      assert all[..|all| - 1] == Split(front, '\n');
      forall i | 0 <= i < |all| - 1 ensures TrimSuffix(all[i], "\r") == Split(front, '\n')[i] {
        assert !HasSuffix(all[i], "\r");
      }
      assert ScanLines(output) == Split(front, '\n');
    } else {
      SplitEndsInNewline(output);
      assert (all + [""])[..|all|] == all;
      forall i | 0 <= i < |all| ensures TrimSuffix(all[i], "\r") == all[i] {
        assert !HasSuffix(all[i], "\r");
      }
      assert ScanLines(output + "\n") == all;
    }
  }

  lemma {:induction false} DataLinesTrailing(lines: seq<string>)
    requires DataLines(lines + [""]).Ok?
    ensures DataLines(lines).Ok? && DataLines(lines + [""]).value == DataLines(lines).value + [""]
  {
    hide SupportedVersion;
    if lines != [] {
      assert (lines + [""])[1..] == lines[1..] + [""];
      if Blank(lines[0]) {
        DataLinesTrailing(lines[1..]);
      }
    }
  }

  /** The file, written from the runtime's answer and read back, holds the servers that the
      runtime reader sees, per backend and in order, less the unusable ones. */
  lemma {:induction false} StateFileMirrorsRuntime(output: string, backend: string, adminState: string -> string)
    requires NoCarriageReturns(Split(output, '\n'))
    requires DataLines(Split(output, '\n')).Ok? && StandardData(DataLines(Split(output, '\n')).value)
    ensures DataLines(ScanLines(StateFileText(output))).Ok?
    ensures EntryFacts(FileServersOf(DataLines(ScanLines(StateFileText(output))).value, backend))
         == UsableFacts(RuntimeServersOf(DataLines(Split(output, '\n')).value, backend, adminState))
  {
    hide Split, ScanLines, DataLines, StandardHeader, FileLine;
    var all := Split(output, '\n');
    var lines := ScanLines(StateFileText(output));
    StateFileLines(output);
    ReadersAgree(DataLines(all).value, backend, adminState);
    if all != lines {
      DataLinesTrailing(lines);
      var data := DataLines(lines).value;
      assert (data + [""])[..|data|] == data;
      TrailingLine(data, backend);
    }
  }

  lemma TrailingLine(data: seq<string>, backend: string)
    ensures FileServersOf(data + [""], backend) == FileServersOf(data, backend)
  {
    assert (data + [""])[..|data|] == data;
    assert Blank("");
  }

  /** The whole way: the servers that HAProxy reads back from the block of a backend, once the
      config has been rewritten from the state file, are the backend's usable runtime servers. */
  lemma {:induction false} ManagedBlocksMirrorRuntime(output: string, adminState: string -> string,
      servers: Servers, config: string, i: nat)
    requires NoCarriageReturns(Split(output, '\n'))
    requires DataLines(Split(output, '\n')).Ok? && StandardData(DataLines(Split(output, '\n')).value)
    requires DataLines(ScanLines(StateFileText(output))).Ok? ==>
      forall b :: ServersFor(servers, b) == FileServersOf(DataLines(ScanLines(StateFileText(output))).value, b)
    requires forall b, k :: b in servers && 0 <= k < |servers[b]| ==> !Bracketed(servers[b][k].addr)
    requires Rewrite(config, servers).Ok?
    requires i < |Split(Rewrite(config, servers).value.0, '\n')| &&
      IsBegin(Split(Rewrite(config, servers).value.0, '\n')[i])
    ensures var lines := Split(Rewrite(config, servers).value.0, '\n');
      BlockHolds(lines, i, ServersFor(servers, BackendOf(lines[i])))
    ensures var backend := BackendOf(Split(Rewrite(config, servers).value.0, '\n')[i]);
      EntryFacts(ServersFor(servers, backend))
        == UsableFacts(RuntimeServersOf(DataLines(Split(output, '\n')).value, backend, adminState))
  {
    hide Split, ScanLines, DataLines, IsBegin, BackendOf, Rewrite, BlockHolds, FileServersOf, RuntimeServersOf;
    hide StandardData, UsableFacts, EntryFacts, PlainEntry, CleanEntry;
    var lines := Split(Rewrite(config, servers).value.0, '\n');
    StateFileMirrorsRuntime(output, BackendOf(lines[i]), adminState);
    var data := DataLines(ScanLines(StateFileText(output))).value;
    forall b, k | b in servers && 0 <= k < |servers[b]|
      ensures PlainEntry(servers[b][k])
    {
      assert servers[b] == FileServersOf(data, b);
      FileServersPlain(data, b);
    }
    RewriteRoundTrip(config, servers);
    BlocksHoldAt(lines, servers, i);
  }

  lemma BlocksHoldAt(lines: seq<string>, servers: Servers, i: nat)
    requires BlocksHold(lines, servers) && i < |lines| && IsBegin(lines[i])
    ensures BlockHolds(lines, i, ServersFor(servers, BackendOf(lines[i])))
  {
  }

  lemma {:induction false} FileServersPlain(lines: seq<string>, backend: string)
    ensures forall i :: 0 <= i < |FileServersOf(lines, backend)| ==>
      (Bracketed(FileServersOf(lines, backend)[i].addr) || PlainEntry(FileServersOf(lines, backend)[i]))
  {
    hide CleanEntry, FileLine, ColumnsAfter, Bracketed;
    FileServersClean(lines, backend);
    if lines != [] {
      var before := lines[..|lines| - 1];
      FileServersPlain(before, backend);
      FileLinePort(lines[|lines| - 1], ColumnsAfter(before));
    }
  }

  lemma FileLinePort(line: string, c: Columns)
    ensures FileLine(line, c).Some? ==> ':' !in FileLine(line, c).value.1.port
  {
    hide Fields, TrimSpace;
    var fields := Fields(line);
    if |fields| > MaxColumn(c) {
      NumbersHaveNoColon(TrimSpace(fields[c.srvPort]));
    }
  }

  lemma NumbersHaveNoColon(s: string)
    ensures ParseInt(s).Some? ==> ':' !in s
  {
    var signed := s != "" && (s[0] == '+' || s[0] == '-');
    if signed {
      assert s == [s[0]] + s[1..];
    }
  }

  // ---- The same, told from the text ----

  /** A line of words with single spaces between them, the first of which does not start a comment. */
  ghost predicate IsRow(line: string, words: seq<string>) {
    && words != [] && (forall i :: 0 <= i < |words| ==> Word(words[i]))
    && words[0][0] != '#' && line == Join(words, ' ')
  }

  lemma RowWords(line: string, words: seq<string>)
    requires words != [] && (forall i :: 0 <= i < |words| ==> Word(words[i])) && line == Join(words, ' ')
    ensures TrimSpace(line) == line && line != "" && line[0] == words[0][0]
    ensures Fields(line) == words && Split(line, ' ') == words
  {
    hide TrimSpace, Split, Fields, Join;
    JoinEnds(words);
    TrimSpaceOfTrimmed(line);
    FieldsJoin(words);
    SplitJoin(words, ' ');
  }

  /** Blank lines, and comments of the state file. */
  lemma LineKinds(lead: string, text: string, trail: string)
    requires AllSpace(lead) && AllSpace(trail) && Trimmed(text)
    ensures Blank(lead + text + trail) <==> text == ""
    ensures IsComment(lead + text + trail) <==> text != "" && text[0] == '#'
  {
    hide TrimSpace;
    TrimSpaceIs(lead, text, trail);
  }

  /** The version line says 1 and nothing else. */
  lemma VersionLine(lead: string, trail: string, n: int)
    requires AllSpace(lead) && AllSpace(trail) && -0x8000_0000_0000_0000 <= n < 0x8000_0000_0000_0000
    ensures SupportedVersion(lead + Itoa(n) + trail) <==> n == 1
  {
    hide TrimSpace, Itoa, ParseInt;
    ItoaIsTrimmed(n);
    TrimSpaceIs(lead, Itoa(n), trail);
    ParseIntItoa(n);
  }

  lemma ItoaIsTrimmed(n: int)
    ensures Trimmed(Itoa(n)) && Word(Itoa(n))
  {
    if n < 0 {
      var digits := NatToString(-n);
      assert Itoa(n)[|Itoa(n)| - 1] == digits[|digits| - 1] && Itoa(n)[0] == '-';
      assert forall i :: 0 < i < |Itoa(n)| ==> Itoa(n)[i] == digits[i - 1];
    }
  }

  lemma NoVersionInText(lead: string, text: string, trail: string, i: nat)
    requires AllSpace(lead) && AllSpace(trail) && Trimmed(text)
    requires 0 < i < |text| && !IsDigit(text[i])
    ensures !SupportedVersion(lead + text + trail)
  {
    hide TrimSpace;
    TrimSpaceIs(lead, text, trail);
  }

  /** Blank lines before the version line are skipped; what follows it are the data. */
  lemma {:induction false} DataFollowVersion(blanks: seq<string>, version: string, rest: seq<string>)
    requires forall i :: 0 <= i < |blanks| ==> AllSpace(blanks[i])
    requires !AllSpace(version)
    ensures DataLines(blanks) == Err(NoVersionLine)
    ensures DataLines(blanks + [version] + rest) == if SupportedVersion(version) then Ok(rest) else Err(BadVersion)
    decreases |blanks|
  {
    hide SupportedVersion;
    var lines := blanks + [version] + rest;
    if blanks == [] {
      BlankIff(version);
      assert lines[0] == version && lines[1..] == rest;
    } else {
      BlankIff(blanks[0]);
      assert lines[1..] == blanks[1..] + [version] + rest;
      DataFollowVersion(blanks[1..], version, rest);
    }
  }

  lemma BlankIff(line: string)
    ensures Blank(line) <==> AllSpace(line)
  {
    hide TrimSpace;
    var lead, trail := TrimSpaceSplits(line);
    if AllSpace(line) {
      TrimSpaceIs(line, "", "");
      assert line + "" + "" == line;
    }
    if Blank(line) {
      assert line == lead + trail;
    }
  }

  /** The lines of a file end in a newline, with or without a carriage return before it. */
  lemma ScannedLines(lines: seq<string>, endings: seq<string>)
    requires lines != [] && |endings| == |lines|
    requires forall i :: 0 <= i < |lines| ==>
      '\n' !in lines[i] && !HasSuffix(lines[i], "\r") && endings[i] in ["", "\r"]
    ensures var text := Join(seq(|lines|, i requires 0 <= i < |lines| => lines[i] + endings[i]), '\n');
      ScanLines(text + "\n") == lines && (lines[|lines| - 1] + endings[|lines| - 1] != "" ==> ScanLines(text) == lines)
  {
    hide Split, Join, TrimSuffix;
    var raw := seq(|lines|, i requires 0 <= i < |lines| => lines[i] + endings[i]);
    SplitJoin(raw, '\n');
    SplitEndsInNewline(Join(raw, '\n'));
    assert (raw + [""])[..|raw|] == raw;
    forall i | 0 <= i < |lines| ensures TrimSuffix(raw[i], "\r") == lines[i] {
      TrimSuffixIs(lines[i], "\r", lines[i]);
      assert lines[i] + "" == lines[i];
    }
    assert seq(|raw|, i requires 0 <= i < |raw| => TrimSuffix(raw[i], "\r")) == lines;
  }

  // ---- Which column is which ----

  /** The last place of a name. */
  predicate LastAt(names: seq<string>, name: string, i: nat) {
    i < |names| && names[i] == name && name !in names[i + 1..]
  }

  lemma {:induction false} ColumnIndexAt(names: seq<string>, name: string, default: nat, i: nat)
    ensures LastAt(names, name, i) ==> ColumnIndex(names, name, default) == i
    ensures name !in names ==> ColumnIndex(names, name, default) == default
  {
    if names != [] {
      var before := names[..|names| - 1];
      ColumnIndexAt(before, name, default, i);
      if LastAt(names, name, i) && i < |before| {
        assert names[i + 1..] == before[i + 1..] + [names[|names| - 1]];
      }
    }
  }

  /** A comment line that holds these words; blanks may stand around it and after its hash sign. */
  ghost predicate IsHeader(line: string, names: seq<string>) {
    && names != [] && (forall i :: 0 <= i < |names| ==> Word(names[i]))
    && exists lead, gap, trail :: AllSpace(lead) && AllSpace(gap) && AllSpace(trail) &&
                                  line == lead + ("#" + gap + Join(names, ' ')) + trail
  }

  lemma HeaderIs(line: string, names: seq<string>)
    requires IsHeader(line, names)
    ensures HeaderNames(line) == names && IsComment(line)
  {
    hide TrimSpace, Fields, Join, TrimPrefix, IsSpace;
    var text := JoinedWords(names);
    var lead, gap, trail :| AllSpace(lead) && AllSpace(gap) && AllSpace(trail) &&
      line == lead + ("#" + gap + Join(names, ' ')) + trail;
    AfterHash(lead, gap, text, trail);
    FieldsJoin(names);
    FieldsAfterIndent(gap, text);
  }

  lemma JoinedWords(words: seq<string>) returns (text: string)
    requires words != [] && forall i :: 0 <= i < |words| ==> Word(words[i])
    ensures text == Join(words, ' ') && text != "" && !IsSpace(text[|text| - 1])
  {
    hide Join, IsSpace;
    text := Join(words, ' ');
    JoinEnds(words);
    var last := words[|words| - 1];
    assert Word(last) && last[|last| - 1] == text[|text| - 1];
  }

  lemma AfterHash(lead: string, gap: string, text: string, trail: string)
    requires AllSpace(lead) && AllSpace(gap) && AllSpace(trail) && text != "" && !IsSpace(text[|text| - 1])
    ensures var line := lead + ("#" + gap + text) + trail;
      TrimSpace(line) == "#" + gap + text && TrimPrefix(TrimSpace(line), "#") == gap + text
  {
    hide TrimSpace;
    TrimSpaceIs(lead, "#" + gap + text, trail);
    assert "#" + gap + text == "#" + (gap + text);
    TrimPrefixIs("#", gap + text, "");
  }

  /** The four columns that a header names; a name that it lacks has its version 1 place. */
  ghost predicate Places(names: seq<string>, beName: nat, srvName: nat, srvAddr: nat, srvPort: nat) {
    && (LastAt(names, "be_name", beName) || ("be_name" !in names && beName == 1))
    && (LastAt(names, "srv_name", srvName) || ("srv_name" !in names && srvName == 3))
    && (LastAt(names, "srv_addr", srvAddr) || ("srv_addr" !in names && srvAddr == 4))
    && (LastAt(names, "srv_port", srvPort) || ("srv_port" !in names && srvPort == 18))
  }

  lemma HeaderPlaces(line: string, names: seq<string>, beName: nat, srvName: nat, srvAddr: nat, srvPort: nat)
    requires IsHeader(line, names) && Places(names, beName, srvName, srvAddr, srvPort)
    ensures HeaderColumns(line) == Columns(beName, srvName, srvAddr, srvPort)
  {
    hide HeaderNames, Join, ColumnIndex, LastAt;
    HeaderIs(line, names);
    ColumnIndexAt(names, "be_name", 1, beName);
    ColumnIndexAt(names, "srv_name", 3, srvName);
    ColumnIndexAt(names, "srv_addr", 4, srvAddr);
    ColumnIndexAt(names, "srv_port", 18, srvPort);
  }

  /** The entry of a row, by its columns: it needs an address and a port from 1 to 65535. */
  ghost function RowEntry(words: seq<string>, srvName: nat, srvAddr: nat, srvPort: nat): seq<Entry>
    requires srvName < |words| && srvAddr < |words| && srvPort < |words|
  {
    var port := ParseInt(words[srvPort]);
    if words[srvAddr] != "-" && port.Some? && 1 <= port.value <= 65535
    then [Entry(words[srvName], words[srvAddr], words[srvPort])] else []
  }

  ghost predicate NoComments(lines: seq<string>) {
    forall i :: 0 <= i < |lines| ==> AllSpace(lines[i]) || exists words :: IsRow(lines[i], words)
  }

  /** Rows after a header are read by it: the first comment says which column is which, whatever comes
      between, and its last mention of a name counts. */
  lemma {:induction false} HeadedRow(before: seq<string>, header: string, names: seq<string>, between: seq<string>,
      row: string, words: seq<string>, beName: nat, srvName: nat, srvAddr: nat, srvPort: nat, backend: string)
    requires NoComments(before) && IsHeader(header, names) && IsRow(row, words)
    requires Places(names, beName, srvName, srvAddr, srvPort)
    ensures var data := before + [header] + between;
      FileServersOf(data + [row], backend)
      == FileServersOf(data, backend) +
         if beName < |words| && srvName < |words| && srvAddr < |words| && srvPort < |words| && words[beName] == backend
         then RowEntry(words, srvName, srvAddr, srvPort) else []
  {
    hide HeaderColumns, Join, ColumnsAfter, FileServersOf, LastAt, ParseInt, RowEntry, IsHeader;
    HeaderPlaces(header, names, beName, srvName, srvAddr, srvPort);
    HeaderIs(header, names);
    FirstComment(before, header, between);
    FileServersGrow(before + [header] + between, row);
    RowIsEntry(row, words, Columns(beName, srvName, srvAddr, srvPort));
  }

  lemma {:induction false} FirstComment(before: seq<string>, header: string, between: seq<string>)
    requires NoComments(before) && IsComment(header)
    ensures ColumnsAfter(before + [header] + between) == HeaderColumns(header)
    decreases |before|
  {
    hide IsComment, HeaderColumns;
    var lines := before + [header] + between;
    if before != [] {
      assert lines[1..] == before[1..] + [header] + between;
      NotAComment(before[0]);
      FirstComment(before[1..], header, between);
    }
  }

  lemma NotAComment(line: string)
    requires AllSpace(line) || exists words :: IsRow(line, words)
    ensures !IsComment(line)
  {
    hide TrimSpace, Join;
    if AllSpace(line) {
      BlankIff(line);
    } else {
      var words :| IsRow(line, words);
      RowWords(line, words);
    }
  }

  lemma RowIsEntry(row: string, words: seq<string>, c: Columns)
    requires IsRow(row, words)
    ensures var short := c.beName >= |words| || c.srvName >= |words| || c.srvAddr >= |words| || c.srvPort >= |words|;
      && (FileLine(row, c).Some? <==> !short && RowEntry(words, c.srvName, c.srvAddr, c.srvPort) != [])
      && (FileLine(row, c).Some? ==>
        FileLine(row, c).value.0 == words[c.beName] &&
        [FileLine(row, c).value.1] == RowEntry(words, c.srvName, c.srvAddr, c.srvPort))
  {
    hide TrimSpace, Join, Fields, ParseInt;
    RowWords(row, words);
    if c.srvPort < |words| {
      TrimSpaceOfTrimmed(words[c.srvPort]);
    }
  }

  /** Without a header rows have the version 1 columns. */
  lemma {:induction false} UnheadedRow(before: seq<string>, row: string, words: seq<string>, backend: string)
    requires NoComments(before) && IsRow(row, words)
    ensures FileServersOf(before + [row], backend)
         == FileServersOf(before, backend) +
            if |words| >= 19 && words[1] == backend then RowEntry(words, 3, 4, 18) else []
  {
    hide Join, ColumnsAfter, FileServersOf, ParseInt, RowEntry, HeaderColumns;
    NoHeader(before);
    FileServersGrow(before, row);
    RowIsEntry(row, words, DEFAULT_COLUMNS);
  }

  lemma {:induction false} NoHeader(lines: seq<string>)
    requires NoComments(lines)
    ensures ColumnsAfter(lines) == DEFAULT_COLUMNS
  {
    hide IsComment, HeaderColumns;
    if lines != [] {
      NotAComment(lines[0]);
      NoHeader(lines[1..]);
    }
  }

  /** Blank lines and comments hold no servers. */
  lemma {:induction false} OtherLines(data: seq<string>, line: string, backend: string)
    requires AllSpace(line) || "#" <= line
    ensures FileServersOf(data + [line], backend) == FileServersOf(data, backend)
  {
    hide FileServersOf, ColumnsAfter, FileRow;
    FileServersGrow(data, line);
    BlankIff(line);
    if "#" <= line {
      TrimSpaceKeepsHash(line);
    }
  }

  /** The columns that HAProxy writes in version 1. */
  const COLUMN_NAMES := [
    "be_id", "be_name", "srv_id", "srv_name", "srv_addr", "srv_op_state", "srv_admin_state", "srv_uweight",
    "srv_iweight", "srv_time_since_last_change", "srv_check_status", "srv_check_result", "srv_check_health",
    "srv_check_state", "srv_agent_state", "bk_f_forced_id", "srv_f_forced_id", "srv_fqdn", "srv_port", "srvrecord",
    "srv_use_ssl", "srv_check_port", "srv_check_addr", "srv_agent_addr", "srv_agent_port"]

  predicate NameLetters(s: string) {
    s != "" && forall i :: 0 <= i < |s| ==> 'a' <= s[i] <= 'z' || s[i] == '_'
  }

  lemma NameLettersAreWord(s: string)
    requires NameLetters(s)
    ensures Word(s)
  {
  }

  lemma ColumnNames0()
    ensures forall i :: 0 <= i < 5 ==> NameLetters(COLUMN_NAMES[i])
  {
    assert NameLetters(COLUMN_NAMES[0]) && NameLetters(COLUMN_NAMES[1]) && NameLetters(COLUMN_NAMES[2]) &&
      NameLetters(COLUMN_NAMES[3]) && NameLetters(COLUMN_NAMES[4]);
  }

  lemma ColumnNames5()
    ensures forall i :: 5 <= i < 10 ==> NameLetters(COLUMN_NAMES[i])
  {
    assert NameLetters(COLUMN_NAMES[5]) && NameLetters(COLUMN_NAMES[6]) && NameLetters(COLUMN_NAMES[7]) &&
      NameLetters(COLUMN_NAMES[8]) && NameLetters(COLUMN_NAMES[9]);
  }

  lemma ColumnNames10()
    ensures forall i :: 10 <= i < 15 ==> NameLetters(COLUMN_NAMES[i])
  {
    assert NameLetters(COLUMN_NAMES[10]) && NameLetters(COLUMN_NAMES[11]) && NameLetters(COLUMN_NAMES[12]) &&
      NameLetters(COLUMN_NAMES[13]) && NameLetters(COLUMN_NAMES[14]);
  }

  lemma ColumnNames15()
    ensures forall i :: 15 <= i < 20 ==> NameLetters(COLUMN_NAMES[i])
  {
    assert NameLetters(COLUMN_NAMES[15]) && NameLetters(COLUMN_NAMES[16]) && NameLetters(COLUMN_NAMES[17]) &&
      NameLetters(COLUMN_NAMES[18]) && NameLetters(COLUMN_NAMES[19]);
  }

  lemma ColumnNames20()
    ensures forall i :: 20 <= i < 25 ==> NameLetters(COLUMN_NAMES[i])
  {
    assert NameLetters(COLUMN_NAMES[20]) && NameLetters(COLUMN_NAMES[21]) && NameLetters(COLUMN_NAMES[22]) &&
      NameLetters(COLUMN_NAMES[23]) && NameLetters(COLUMN_NAMES[24]);
  }

  /** HAProxy's own header is a standard one, so the results for standard data are about its text. */
  lemma {:induction false} RealHeaderIsStandard()
    ensures StandardHeader("# " + Join(COLUMN_NAMES, ' '))
  {
    hide Join, HeaderColumns;
    ColumnNames0();
    ColumnNames5();
    ColumnNames10();
    ColumnNames15();
    ColumnNames20();
    forall i | 0 <= i < |COLUMN_NAMES| ensures Word(COLUMN_NAMES[i]) {
      NameLettersAreWord(COLUMN_NAMES[i]);
    }
    var header := "# " + Join(COLUMN_NAMES, ' ');
    assert header == "" + ("#" + " " + Join(COLUMN_NAMES, ' ')) + "";
    assert AllSpace("") && AllSpace(" ") && IsHeader(header, COLUMN_NAMES);
    HeaderIs(header, COLUMN_NAMES);
    assert Places(COLUMN_NAMES, 1, 3, 4, 18) by {
      hide LastAt;
      RealBackendColumn();
      RealNameColumn();
      RealAddressColumn();
      RealPortColumn();
    }
    HeaderPlaces(header, COLUMN_NAMES, 1, 3, 4, 18);
  }

  lemma LastByIndex(names: seq<string>, name: string, i: nat)
    requires i < |names| && names[i] == name && forall k :: i < k < |names| ==> names[k] != name
    ensures LastAt(names, name, i)
  {
  }

  lemma RealBackendColumn()
    ensures LastAt(COLUMN_NAMES, "be_name", 1)
  {
    assert forall k :: 2 <= k < 25 ==> |COLUMN_NAMES[k]| != |"be_name"|;
    LastByIndex(COLUMN_NAMES, "be_name", 1);
  }

  lemma RealNameColumn()
    ensures LastAt(COLUMN_NAMES, "srv_name", 3)
  {
    assert forall k :: 4 <= k < 25 ==> |COLUMN_NAMES[k]| != |"srv_name"| || COLUMN_NAMES[k][4] != "srv_name"[4];
    LastByIndex(COLUMN_NAMES, "srv_name", 3);
  }

  lemma RealAddressColumn()
    ensures LastAt(COLUMN_NAMES, "srv_addr", 4)
  {
    assert forall k :: 5 <= k < 25 ==> |COLUMN_NAMES[k]| != |"srv_addr"| || COLUMN_NAMES[k][4] != "srv_addr"[4];
    LastByIndex(COLUMN_NAMES, "srv_addr", 4);
  }

  lemma RealPortColumn()
    ensures LastAt(COLUMN_NAMES, "srv_port", 18)
  {
    assert forall k :: 19 <= k < 25 ==> |COLUMN_NAMES[k]| != |"srv_port"|;
    LastByIndex(COLUMN_NAMES, "srv_port", 18);
  }

  // ---- The runtime reader's rows ----

  /** A row of the runtime's answer, by its columns, which single spaces separate; nothing in it depends
      on a header. Rows that are too short or name no backend are dropped. */
  lemma RuntimeRowIs(row: string, fields: seq<string>, adminState: string -> string)
    requires fields != [] && (forall i :: 0 <= i < |fields| ==> ' ' !in fields[i]) && row == Join(fields, ' ')
    requires !AllSpace(row) && !("#" <= row) && TrimSpace(row) != "1"
    ensures |fields| < 19 || fields[1] == "" ==> RuntimeLine(row, adminState) == None
    ensures |fields| >= 19 && fields[1] != "" ==>
      RuntimeLine(row, adminState)
      == Some((fields[1], RuntimeServer(fields[3], fields[4], ParseInt(fields[18]), adminState(fields[6]),
           OperationalState(fields[5]))))
  {
    hide TrimSpace, Join, Split, ParseInt, OperationalState;
    SplitJoin(fields, ' ');
    BlankIff(row);
  }

  /** Down, up twice, and stopping; any other code has no name. */
  lemma OperationalStates(code: string)
    ensures OperationalState("0") == "down" && OperationalState("3") == "stopping"
    ensures OperationalState("1") == "up" && OperationalState("2") == "up"
    ensures code !in {"0", "1", "2", "3"} ==> OperationalState(code) == ""
  {
  }

  /** Blank lines, comments and repeated version lines hold no servers. */
  lemma OtherRuntimeLines(line: string, adminState: string -> string)
    requires AllSpace(line) || "#" <= line || TrimSpace(line) == "1"
    ensures RuntimeLine(line, adminState) == None
  {
    hide TrimSpace, RuntimeRow;
    BlankIff(line);
  }
}
