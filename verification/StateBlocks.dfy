/** Managed server blocks in the HAProxy config: replacing what stands between the markers and
    nothing else. */
module StateBlocks {
  import opened GoStrings
  import opened Endpoints

  const BEGIN_PREFIX := "#DROVE-SERVERS-BEGIN"
  const END_MARKER := "#DROVE-SERVERS-END"

  /** A server of the state file; the three fields are words. */
  datatype Entry = Entry(name: string, addr: string, port: string)

  type Servers = map<string, seq<Entry>>

  /** Line numbers count from 1, as in the messages. */
  datatype RewriteError =
    | MissingBackend
    | NestedBegin(backend: string, line: nat, nestedLine: nat)
    | Unclosed(backend: string, line: nat)

  predicate IsBegin(line: string) {
    BEGIN_PREFIX <= TrimSpace(line)
  }

  predicate IsEnd(line: string) {
    TrimSpace(line) == END_MARKER
  }

  function BackendOf(line: string): string {
    TrimSpace(TrimPrefix(TrimSpace(line), BEGIN_PREFIX))
  }

  /** The leading blanks of a line: spaces and tabs only. */
  function Indent(line: string): (r: string)
    ensures r <= line
    ensures forall i :: 0 <= i < |r| ==> r[i] == ' ' || r[i] == '\t'
  {
    if line != "" && (line[0] == ' ' || line[0] == '\t') then [line[0]] + Indent(line[1..]) else ""
  }

  function ServersFor(servers: Servers, backend: string): seq<Entry> {
    if backend in servers then servers[backend] else []
  }

  function ServerLine(indent: string, e: Entry): string {
    indent + "server " + e.name + " " + FormatServerEndpoint(e.addr, e.port)
  }

  function ServerLines(indent: string, entries: seq<Entry>): (lines: seq<string>)
    ensures |lines| == |entries|
    ensures forall i :: 0 <= i < |lines| ==> lines[i] == ServerLine(indent, entries[i])
  {
    seq(|entries|, i requires 0 <= i < |entries| => ServerLine(indent, entries[i]))
  }

  // ---- The reference: a config is a list of plain lines and closed blocks ----

  datatype Item =
    | Plain(line: string)
    | Block(begin: string, body: seq<string>, end: string)

  /** The end marker closing the block whose begin marker stands just before `lines`. */
  function FindEnd(lines: seq<string>, begin: string, beginLine: nat, offset: nat): (r: Result<nat, RewriteError>)
    ensures r.Ok? ==> r.value < |lines| && IsEnd(lines[r.value])
    ensures r.Ok? ==> forall k :: 0 <= k < r.value ==> !IsEnd(lines[k]) && !IsBegin(lines[k])
  {
    if lines == [] then Err(Unclosed(BackendOf(begin), beginLine))
    else if IsEnd(lines[0]) then Ok(0)
    else if IsBegin(lines[0]) then Err(NestedBegin(BackendOf(begin), beginLine, offset + 1))
    else
      match FindEnd(lines[1..], begin, beginLine, offset + 1)
      case Ok(k) => Ok(k + 1)
      case Err(e) => Err(e)
  }

  /** Reads the lines of a config; `offset` lines stand before them. */
  function ReadItems(lines: seq<string>, offset: nat): (r: Result<seq<Item>, RewriteError>)
    decreases |lines|
  {
    if lines == [] then Ok([])
    else if !IsBegin(lines[0]) then PrependAll([Plain(lines[0])], ReadItems(lines[1..], offset + 1))
    else if BackendOf(lines[0]) == "" then Err(MissingBackend)
    else
      match FindEnd(lines[1..], lines[0], offset + 1, offset + 1)
      case Err(e) => Err(e)
      case Ok(k) =>
        PrependAll([Block(lines[0], lines[1..k + 1], lines[k + 1])], ReadItems(lines[k + 2..], offset + k + 2))
  }

  function PrependAll(items: seq<Item>, r: Result<seq<Item>, RewriteError>): Result<seq<Item>, RewriteError> {
    if r.Ok? then Ok(items + r.value) else r
  }

  /** An item with its block body replaced by the servers of its backend. */
  function Refill(item: Item, servers: Servers): Item {
    match item
    case Plain(_) => item
    case Block(begin, _, end) => Block(begin, ServerLines(Indent(begin), ServersFor(servers, BackendOf(begin))), end)
  }

  function RefillAll(items: seq<Item>, servers: Servers): seq<Item> {
    seq(|items|, i requires 0 <= i < |items| => Refill(items[i], servers))
  }

  function ItemLines(item: Item): seq<string> {
    match item
    case Plain(line) => [line]
    case Block(begin, body, end) => [begin] + body + [end]
  }

  function LinesOf(items: seq<Item>): seq<string> {
    if items == [] then [] else ItemLines(items[0]) + LinesOf(items[1..])
  }

  function CountBlocks(items: seq<Item>): nat {
    if items == [] then 0 else (if items[0].Block? then 1 else 0) + CountBlocks(items[1..])
  }

  /** What rewriting a config text means: read it, refill every block, write it out. */
  function Rewrite(content: string, servers: Servers): Result<(string, nat), RewriteError> {
    match ReadItems(Split(content, '\n'), 0)
    case Err(e) => Err(e)
    case Ok(items) => Ok((Join(LinesOf(RefillAll(items, servers)), '\n'), CountBlocks(items)))
  }

  // ---- The algorithm ----

  /** rewriteServerStateConfigBlocks: one pass with moving indices. */
  method RewriteServerStateConfigBlocks(content: string, servers: Servers)
    returns (r: Result<(string, nat), RewriteError>)
    ensures r == Rewrite(content, servers)
  {
    hide *;
    RewriteIs(content, servers);
    var lines := Split(content, '\n');
    var out: seq<string> := [];
    var blockCount := 0;
    var i := 0;
    ghost var done: seq<Item> := [];
    assert lines[0..] == lines;
    NothingDone(servers, ReadItems(lines, 0));
    while i < |lines|
      invariant 0 <= i <= |lines|
      invariant out == LinesOf(RefillAll(done, servers))
      invariant blockCount == CountBlocks(done)
      invariant ReadItems(lines, 0) == PrependAll(done, ReadItems(lines[i..], i))
    {
      var line := lines[i];
      var trimmed := TrimSpace(line);
      MarkerTests(line);
      assert lines[i..][0] == line && lines[i..][1..] == lines[i + 1..];
      if !(BEGIN_PREFIX <= trimmed) {
        out := out + [line];
        ReadPlain(lines[i..], i);
        AppendItem(done, Plain(line), servers);
        PrependTwice(done, [Plain(line)], ReadItems(lines[i + 1..], i + 1));
        done := done + [Plain(line)];
        i := i + 1;
        continue;
      }
      var backend := TrimSpace(TrimPrefix(trimmed, BEGIN_PREFIX));
      if backend == "" {
        ReadFails(lines[i..], i);
        PrependFailure(done, MissingBackend);
        return Err(MissingBackend);
      }
      out := out + [line];
      var emitted := EmitServers(Indent(line), ServersFor(servers, backend));
      out := out + emitted;
      var found := SkipToEnd(lines, i);
      UnshiftBy(FindEnd(lines[i + 1..], line, i + 1, i + 1), i + 1);
      if found.Err? {
        ReadFails(lines[i..], i);
        PrependFailure(done, found.error);
        return Err(found.error);
      }
      var end := found.value;
      out := out + [lines[end]];
      ghost var item := Block(line, lines[i + 1..end], lines[end]);
      ReadBlock(lines[i..], end - i - 1, i);
      CutFrom(lines, i, end);
      AppendItem(done, item, servers);
      RefilledLines(LinesOf(RefillAll(done, servers)), item, servers);
      PrependTwice(done, [item], ReadItems(lines[end + 1..], end + 1));
      done := done + [item];
      blockCount := blockCount + 1;
      i := end + 1;
    }
    assert lines[i..] == [];
    ReadNothing(i);
    AllDone(done);
    r := Ok((Join(out, '\n'), blockCount));
  }

  /** The managed server lines of one block. */
  method EmitServers(indent: string, entries: seq<Entry>) returns (out: seq<string>)
    ensures out == ServerLines(indent, entries)
  {
    hide ServerLine;
    out := [];
    for n := 0 to |entries|
      invariant out == ServerLines(indent, entries)[..n]
    {
      out := out + [ServerLine(indent, entries[n])];
    }
  }

  /** Skips the old contents of the block that line i begins. */
  method SkipToEnd(lines: seq<string>, i: nat) returns (r: Result<nat, RewriteError>)
    requires i < |lines|
    ensures r == ShiftBy(FindEnd(lines[i + 1..], lines[i], i + 1, i + 1), i + 1)
    ensures r.Ok? ==> i < r.value < |lines|
  {
    hide TrimSpace, BackendOf;
    var j := i + 1;
    while j < |lines|
      invariant i < j <= |lines|
      invariant FindEnd(lines[i + 1..], lines[i], i + 1, i + 1)
        == ShiftBy(FindEnd(lines[j..], lines[i], i + 1, j), j - i - 1)
    {
      assert lines[j..][0] == lines[j] && lines[j..][1..] == lines[j + 1..];
      if TrimSpace(lines[j]) == END_MARKER {
        return Ok(j);
      }
      if BEGIN_PREFIX <= TrimSpace(lines[j]) {
        return Err(NestedBegin(BackendOf(lines[i]), i + 1, j + 1));
      }
      j := j + 1;
    }
    return Err(Unclosed(BackendOf(lines[i]), i + 1));
  }

  lemma EndIsNotBegin(line: string)
    requires IsEnd(line)
    ensures !IsBegin(line)
  {
  }

  lemma MarkerTests(line: string)
    ensures IsBegin(line) <==> BEGIN_PREFIX <= TrimSpace(line)
    ensures BackendOf(line) == TrimSpace(TrimPrefix(TrimSpace(line), BEGIN_PREFIX))
  {
  }

  // How ReadItems unfolds, one lemma a branch.

  lemma ReadNothing(offset: nat)
    ensures ReadItems([], offset) == Ok([])
  {
  }

  lemma ReadPlain(lines: seq<string>, offset: nat)
    requires lines != [] && !IsBegin(lines[0])
    ensures ReadItems(lines, offset) == PrependAll([Plain(lines[0])], ReadItems(lines[1..], offset + 1))
  {
    hide IsBegin, PrependAll;
  }

  lemma ReadBlock(lines: seq<string>, k: nat, offset: nat)
    requires k + 1 < |lines| && IsBegin(lines[0]) && BackendOf(lines[0]) != ""
    requires FindEnd(lines[1..], lines[0], offset + 1, offset + 1) == Ok(k)
    ensures ReadItems(lines, offset)
         == PrependAll([Block(lines[0], lines[1..k + 1], lines[k + 1])], ReadItems(lines[k + 2..], offset + k + 2))
  {
    hide IsBegin, BackendOf, PrependAll, FindEnd;
  }

  lemma ReadFails(lines: seq<string>, offset: nat)
    requires lines != [] && IsBegin(lines[0])
    requires BackendOf(lines[0]) == "" || FindEnd(lines[1..], lines[0], offset + 1, offset + 1).Err?
    ensures ReadItems(lines, offset)
         == Err(if BackendOf(lines[0]) == "" then MissingBackend
           else FindEnd(lines[1..], lines[0], offset + 1, offset + 1).error)
  {
    hide IsBegin, BackendOf, PrependAll, FindEnd;
  }

  lemma CutFrom(lines: seq<string>, i: nat, end: nat)
    requires i < end < |lines|
    ensures lines[i..][1..] == lines[i + 1..]
    ensures lines[i..][1..end - i] == lines[i + 1..end] && lines[i..][end - i] == lines[end]
    ensures lines[i..][end - i + 1..] == lines[end + 1..]
  {
  }

  lemma RewriteIs(content: string, servers: Servers)
    ensures ReadItems(Split(content, '\n'), 0).Err? ==>
      Rewrite(content, servers) == Err(ReadItems(Split(content, '\n'), 0).error)
    ensures ReadItems(Split(content, '\n'), 0).Ok? ==>
      (var items := ReadItems(Split(content, '\n'), 0).value;
       Rewrite(content, servers) == Ok((Join(LinesOf(RefillAll(items, servers)), '\n'), CountBlocks(items))))
  {
    hide ReadItems, Split;
  }

  lemma AllDone(done: seq<Item>)
    ensures PrependAll(done, Ok([])) == Ok(done)
  {
    assert done + [] == done;
  }

  lemma PrependFailure(done: seq<Item>, e: RewriteError)
    ensures PrependAll(done, Err(e)) == Err(e)
  {
  }

  lemma UnshiftBy(r: Result<nat, RewriteError>, n: nat)
    ensures ShiftBy(r, n) == if r.Ok? then Ok(r.value + n) else r
  {
  }

  lemma RefilledLines(out: seq<string>, item: Item, servers: Servers)
    requires item.Block?
    ensures out + ItemLines(Refill(item, servers))
         == out + [item.begin] + ServerLines(Indent(item.begin), ServersFor(servers, BackendOf(item.begin)))
           + [item.end]
  {
    hide BackendOf, Indent, ServerLines, ServersFor;
  }

  lemma NothingDone(servers: Servers, r: Result<seq<Item>, RewriteError>)
    ensures LinesOf(RefillAll([], servers)) == [] && CountBlocks([]) == 0
    ensures PrependAll([], r) == r
  {
    if r.Ok? {
      assert [] + r.value == r.value;
    }
  }

  function ShiftBy(r: Result<nat, RewriteError>, n: nat): Result<nat, RewriteError> {
    if r.Ok? then Ok(r.value + n) else r
  }

  lemma PrependTwice(a: seq<Item>, b: seq<Item>, r: Result<seq<Item>, RewriteError>)
    ensures PrependAll(a, PrependAll(b, r)) == PrependAll(a + b, r)
  {
    if r.Ok? {
      assert a + (b + r.value) == a + b + r.value;
    }
  }

  /** One more item read: how the output and the count grow. */
  lemma AppendItem(done: seq<Item>, item: Item, servers: Servers)
    ensures LinesOf(RefillAll(done + [item], servers))
      == LinesOf(RefillAll(done, servers)) + ItemLines(Refill(item, servers))
    ensures CountBlocks(done + [item]) == CountBlocks(done) + (if item.Block? then 1 else 0)
    ensures item.Plain? ==> ItemLines(Refill(item, servers)) == [item.line]
  {
    hide ServerLines, ServersFor, Indent, BackendOf;
    var refilled := Refill(item, servers);
    assert RefillAll(done + [item], servers) == RefillAll(done, servers) + [refilled];
    LinesOfAppend(RefillAll(done, servers), [refilled]);
    LinesOfOne(refilled);
    CountBlocksAppend(done, [item]);
  }

  lemma LinesOfOne(item: Item)
    ensures LinesOf([item]) == ItemLines(item)
  {
    hide ItemLines;
    assert LinesOf([item]) == ItemLines(item) + [];
  }

  lemma {:induction false} LinesOfAppend(a: seq<Item>, b: seq<Item>)
    ensures LinesOf(a + b) == LinesOf(a) + LinesOf(b)
  {
    if a == [] {
      assert a + b == b;
    } else {
      assert (a + b)[1..] == a[1..] + b;
      LinesOfAppend(a[1..], b);
    }
  }

  lemma {:induction false} CountBlocksAppend(a: seq<Item>, b: seq<Item>)
    ensures CountBlocks(a + b) == CountBlocks(a) + CountBlocks(b)
  {
    if a == [] {
      assert a + b == b;
    } else {
      assert (a + b)[1..] == a[1..] + b;
      CountBlocksAppend(a[1..], b);
    }
  }

  // ---- Items and lines determine each other ----

  ghost predicate GoodItem(item: Item) {
    match item
    case Plain(line) => !IsBegin(line)
    case Block(begin, body, end) =>
      && IsBegin(begin) && BackendOf(begin) != ""
      && IsEnd(end)
      && forall k :: 0 <= k < |body| ==> !IsBegin(body[k]) && !IsEnd(body[k])
  }

  ghost predicate GoodItems(items: seq<Item>) {
    forall i :: 0 <= i < |items| ==> GoodItem(items[i])
  }

  lemma CutBlock(lines: seq<string>, k: nat)
    requires k + 1 < |lines|
    ensures [lines[0]] + lines[1..k + 1] + [lines[k + 1]] + lines[k + 2..] == lines
    ensures lines[1..][k] == lines[k + 1]
    ensures forall n :: 0 <= n < k ==> lines[1..k + 1][n] == lines[1..][n]
  {
  }

  lemma {:induction false} ReadItemsSound(lines: seq<string>, offset: nat)
    requires ReadItems(lines, offset).Ok?
    ensures LinesOf(ReadItems(lines, offset).value) == lines
    ensures GoodItems(ReadItems(lines, offset).value)
    decreases |lines|
  {
    hide IsBegin, IsEnd, BackendOf, ReadItems, FindEnd;
    if lines == [] {
      ReadNothing(offset);
    } else if !IsBegin(lines[0]) {
      ReadPlain(lines, offset);
      ReadItemsSound(lines[1..], offset + 1);
      LinesOfAppend([Plain(lines[0])], ReadItems(lines[1..], offset + 1).value);
    } else {
      var found := FindEnd(lines[1..], lines[0], offset + 1, offset + 1);
      if BackendOf(lines[0]) == "" || found.Err? {
        ReadFails(lines, offset);
      }
      var k := found.value;
      ReadBlock(lines, k, offset);
      ReadItemsSound(lines[k + 2..], offset + k + 2);
      CutBlock(lines, k);
      var item := Block(lines[0], lines[1..k + 1], lines[k + 1]);
      assert GoodItem(item);
      LinesOfAppend([item], ReadItems(lines[k + 2..], offset + k + 2).value);
    }
  }

  lemma {:induction false} FindEndOfBody(body: seq<string>, end: string, tail: seq<string>, begin: string,
      beginLine: nat, offset: nat)
    requires IsEnd(end)
    requires forall k :: 0 <= k < |body| ==> !IsBegin(body[k]) && !IsEnd(body[k])
    ensures FindEnd(body + [end] + tail, begin, beginLine, offset) == Ok(|body|)
  {
    if body != [] {
      assert (body + [end] + tail)[1..] == body[1..] + [end] + tail;
      FindEndOfBody(body[1..], end, tail, begin, beginLine, offset + 1);
    }
  }

  lemma {:induction false} ReadItemsComplete(items: seq<Item>, offset: nat)
    requires GoodItems(items)
    ensures ReadItems(LinesOf(items), offset) == Ok(items)
  {
    hide IsBegin, IsEnd, BackendOf, ReadItems, FindEnd;
    if items == [] {
      ReadNothing(offset);
    } else {
      var lines, tail := LinesOf(items), LinesOf(items[1..]);
      assert items == [items[0]] + items[1..];
      assert GoodItem(items[0]);
      match items[0]
      case Plain(line) =>
        assert lines[1..] == tail;
        ReadPlain(lines, offset);
        ReadItemsComplete(items[1..], offset + 1);
      case Block(begin, body, end) =>
        assert lines[1..] == body + [end] + tail;
        FindEndOfBody(body, end, tail, begin, offset + 1, offset + 1);
        assert lines[1..|body| + 1] == body;
        assert lines[|body| + 2..] == tail;
        ReadBlock(lines, |body|, offset);
        ReadItemsComplete(items[1..], offset + |body| + 2);
    }
  }

  // ---- Emitted lines ----

  predicate CleanEntry(e: Entry) {
    Word(e.name) && Word(e.addr) && Word(e.port)
  }

  /** Entries as the state file parser yields them. */
  ghost predicate CleanServers(servers: Servers) {
    forall b, i :: b in servers && 0 <= i < |servers[b]| ==> CleanEntry(servers[b][i])
  }

  /** No emitted line can be taken for a marker or break into two lines. */
  lemma ServerLineIsNoMarker(indent: string, e: Entry)
    requires CleanEntry(e)
    requires forall i :: 0 <= i < |indent| ==> indent[i] == ' ' || indent[i] == '\t'
    ensures !IsBegin(ServerLine(indent, e)) && !IsEnd(ServerLine(indent, e))
    ensures '\n' !in ServerLine(indent, e)
  {
    hide FormatServerEndpoint, TrimSpace;
    EndpointIsWord(e);
    var endpoint := FormatServerEndpoint(e.addr, e.port);
    var rest := "server " + e.name + " " + endpoint;
    assert ServerLine(indent, e) == indent + rest;
    TrimSpaceDropsLeading(indent, rest);
    assert rest[0] == 's' && rest[|rest| - 1] == endpoint[|endpoint| - 1];
    TrimSpaceOfTrimmed(rest);
  }

  lemma EndpointIsWord(e: Entry)
    requires CleanEntry(e)
    ensures Word(FormatServerEndpoint(e.addr, e.port))
    ensures TrimSpace(e.addr) == e.addr
  {
    TrimSpaceOfTrimmed(e.addr);
  }

  ghost predicate NoLineBreaks(lines: seq<string>) {
    forall i :: 0 <= i < |lines| ==> '\n' !in lines[i]
  }

  lemma RefillKeepsGood(item: Item, servers: Servers)
    requires GoodItem(item) && CleanServers(servers)
    ensures GoodItem(Refill(item, servers))
    ensures NoLineBreaks(ItemLines(item)) ==> NoLineBreaks(ItemLines(Refill(item, servers)))
  {
    hide IsBegin, IsEnd, BackendOf, ServerLine, CleanEntry;
    if item.Block? {
      var entries := ServersFor(servers, BackendOf(item.begin));
      var indent := Indent(item.begin);
      forall k | 0 <= k < |entries|
        ensures !IsBegin(ServerLine(indent, entries[k])) && !IsEnd(ServerLine(indent, entries[k]))
        ensures '\n' !in ServerLine(indent, entries[k])
      {
        ServerLineIsNoMarker(indent, entries[k]);
      }
      assert GoodItem(Refill(item, servers));
      if NoLineBreaks(ItemLines(item)) {
        NoBreaksInBlock(item.begin, item.body, item.end);
        NoBreaksInBlock(item.begin, ServerLines(indent, entries), item.end);
      }
    }
  }

  lemma NoBreaksInBlock(begin: string, body: seq<string>, end: string)
    ensures NoLineBreaks([begin] + body + [end]) <==> '\n' !in begin && NoLineBreaks(body) && '\n' !in end
  {
    var lines := [begin] + body + [end];
    assert lines[0] == begin && lines[|body| + 1] == end;
    assert forall k :: 0 <= k < |body| ==> lines[k + 1] == body[k];
  }

  lemma {:induction false} RefillAllKeepsGood(items: seq<Item>, servers: Servers)
    requires GoodItems(items) && CleanServers(servers) && NoLineBreaks(LinesOf(items))
    ensures GoodItems(RefillAll(items, servers)) && NoLineBreaks(LinesOf(RefillAll(items, servers)))
  {
    hide GoodItem, ItemLines, Refill, CleanServers, NoLineBreaks;
    if items == [] {
      assert RefillAll(items, servers) == [];
    } else {
      NoBreaksAppend(ItemLines(items[0]), LinesOf(items[1..]));
      RefillKeepsGood(items[0], servers);
      RefillAllKeepsGood(items[1..], servers);
      NoBreaksAppend(ItemLines(Refill(items[0], servers)), LinesOf(RefillAll(items[1..], servers)));
      assert RefillAll(items, servers) == [Refill(items[0], servers)] + RefillAll(items[1..], servers);
    }
  }

  lemma NoBreaksAppend(a: seq<string>, b: seq<string>)
    ensures NoLineBreaks(a + b) <==> NoLineBreaks(a) && NoLineBreaks(b)
  {
    assert forall i :: 0 <= i < |a| ==> a[i] == (a + b)[i];
    assert forall i :: 0 <= i < |b| ==> b[i] == (a + b)[|a| + i];
  }

  // ---- The laws of rewriting ----

  /** What a successful rewrite is made of. */
  lemma RewriteText(content: string, servers: Servers) returns (items: seq<Item>)
    requires CleanServers(servers)
    requires Rewrite(content, servers).Ok?
    ensures GoodItems(items) && LinesOf(items) == Split(content, '\n')
    ensures GoodItems(RefillAll(items, servers))
    ensures Split(Rewrite(content, servers).value.0, '\n') == LinesOf(RefillAll(items, servers))
    ensures Rewrite(content, servers).value.1 == CountBlocks(items)
  {
    var lines := Split(content, '\n');
    items := ReadItems(lines, 0).value;
    ReadItemsSound(lines, 0);
    RefillAllKeepsGood(items, servers);
    var refilled := RefillAll(items, servers);
    assert items != [] && refilled != [];
    SplitJoin(LinesOf(refilled), '\n');
  }

  /** Absorption: a later rewrite erases every trace of an earlier one, so rewriting is
      idempotent (servers1 == servers2). */
  lemma RewriteAbsorbs(content: string, servers1: Servers, servers2: Servers)
    requires CleanServers(servers1)
    requires Rewrite(content, servers1).Ok?
    ensures Rewrite(Rewrite(content, servers1).value.0, servers2) == Rewrite(content, servers2)
  {
    hide ReadItems, Split, Join, LinesOf, CountBlocks, GoodItems, CleanServers, RefillAll, Rewrite;
    var items := RewriteText(content, servers1);
    var once := RefillAll(items, servers1);
    ReadItemsComplete(items, 0);
    ReadItemsComplete(once, 0);
    RefillTwice(items, servers1, servers2);
    RefillKeepsCount(items, servers1);
    RewriteIs(content, servers2);
    RewriteIs(Rewrite(content, servers1).value.0, servers2);
  }

  lemma RefillTwice(items: seq<Item>, servers1: Servers, servers2: Servers)
    ensures RefillAll(RefillAll(items, servers1), servers2) == RefillAll(items, servers2)
  {
    hide ServerLines, BackendOf, Indent, ServersFor;
  }

  lemma {:induction false} RefillKeepsCount(items: seq<Item>, servers: Servers)
    ensures CountBlocks(RefillAll(items, servers)) == CountBlocks(items)
  {
    if items != [] {
      assert RefillAll(items, servers)[1..] == RefillAll(items[1..], servers);
      RefillKeepsCount(items[1..], servers);
    }
  }

  /** Line j closes the begin marker on line i: no other begin marker stands between them. */
  ghost predicate Closes(lines: seq<string>, i: nat, j: nat) {
    i < j < |lines| && IsEnd(lines[j]) && forall k :: i < k < j ==> !IsBegin(lines[k])
  }

  ghost predicate GoodMarker(lines: seq<string>, i: nat)
    requires i < |lines|
  {
    IsBegin(lines[i]) ==> BackendOf(lines[i]) != "" && exists j: nat :: Closes(lines, i, j)
  }

  ghost predicate GoodMarkers(lines: seq<string>) {
    forall i: nat :: i < |lines| ==> GoodMarker(lines, i)
  }

  /** Rewriting succeeds exactly when each begin marker names a backend and meets an end marker
      before any other begin marker, whatever the servers are. */
  lemma RewriteSucceedsIff(content: string, servers: Servers)
    ensures Rewrite(content, servers).Ok? <==> GoodMarkers(Split(content, '\n'))
  {
    ReadSucceedsIff(Split(content, '\n'), 0);
  }

  lemma {:induction false} ReadSucceedsIff(lines: seq<string>, offset: nat)
    ensures ReadItems(lines, offset).Ok? <==> GoodMarkers(lines)
    decreases |lines|
  {
    hide IsBegin, IsEnd, BackendOf, ReadItems, FindEnd;
    if lines == [] {
      ReadNothing(offset);
    } else if !IsBegin(lines[0]) {
      ReadPlain(lines, offset);
      ReadSucceedsIff(lines[1..], offset + 1);
      DropGoodMarkers(lines, 1);
    } else if BackendOf(lines[0]) == "" {
      ReadFails(lines, offset);
      assert !GoodMarker(lines, 0);
    } else {
      var found := FindEnd(lines[1..], lines[0], offset + 1, offset + 1);
      if found.Ok? {
        var k := found.value;
        assert forall n :: 0 < n <= k ==> lines[n] == lines[1..][n - 1];
        assert lines[k + 1] == lines[1..][k];
        assert Closes(lines, 0, k + 1);
        ReadBlock(lines, k, offset);
        EndIsNotBegin(lines[k + 1]);
        assert forall n: nat :: 0 < n < k + 2 ==> GoodMarker(lines, n);
        ReadSucceedsIff(lines[k + 2..], offset + k + 2);
        DropGoodMarkers(lines, k + 2);
      } else {
        ReadFails(lines, offset);
        forall j: nat ensures !Closes(lines, 0, j) {
          if Closes(lines, 0, j) {
            FindEndFails(lines[1..], lines[0], offset + 1, offset + 1, j - 1);
          }
        }
        assert !GoodMarker(lines, 0);
      }
    }
  }

  lemma {:induction false} FindEndFails(lines: seq<string>, begin: string, beginLine: nat, offset: nat, j: nat)
    requires FindEnd(lines, begin, beginLine, offset).Err?
    requires j < |lines| && IsEnd(lines[j])
    ensures exists k :: 0 <= k < j && IsBegin(lines[k])
  {
    if !IsBegin(lines[0]) {
      FindEndFails(lines[1..], begin, beginLine, offset + 1, j - 1);
      var k :| 0 <= k < j - 1 && IsBegin(lines[1..][k]);
      assert IsBegin(lines[k + 1]);
    }
  }

  lemma DropGoodMarkers(lines: seq<string>, n: nat)
    requires n <= |lines|
    requires forall i: nat :: i < n ==> GoodMarker(lines, i)
    ensures GoodMarkers(lines) <==> GoodMarkers(lines[n..])
  {
    forall i: nat | i < |lines| - n
      ensures GoodMarker(lines[n..], i) <==> GoodMarker(lines, n + i)
    {
      if j: nat :| Closes(lines[n..], i, j) {
        assert forall k :: n + i < k < n + j ==> lines[k] == lines[n..][k - n];
        assert Closes(lines, n + i, n + j);
      }
      var m := n + i;
      if j: nat :| Closes(lines, m, j) {
        assert Closes(lines[n..], i, j - n);
      }
    }
    if GoodMarkers(lines[n..]) {
      forall i: nat | i < |lines| ensures GoodMarker(lines, i) {
        if i >= n {
          assert GoodMarker(lines[n..], i - n);
        }
      }
    }
  }

  /** The lines outside blocks and the markers, in order, found by one left-to-right scan. */
  function Outline(lines: seq<string>, inside: bool): seq<string> {
    if lines == [] then []
    else if inside && !IsEnd(lines[0]) then Outline(lines[1..], true)
    else [lines[0]] + Outline(lines[1..], !inside && IsBegin(lines[0]))
  }

  function CountBegins(lines: seq<string>): nat {
    if lines == [] then 0 else (if IsBegin(lines[0]) then 1 else 0) + CountBegins(lines[1..])
  }

  /** haproxyServerStateBlocksPresent, on the text of the config. */
  method ServerStateBlocksPresent(content: string) returns (present: bool)
    ensures present <==> exists i :: 0 <= i < |Split(content, '\n')| && IsBegin(Split(content, '\n')[i])
  {
    var lines := Split(content, '\n');
    for i := 0 to |lines|
      invariant forall k :: 0 <= k < i ==> !IsBegin(lines[k])
    {
      if BEGIN_PREFIX <= TrimSpace(lines[i]) {
        assert IsBegin(Split(content, '\n')[i]);
        return true;
      }
    }
    return false;
  }

  /** Frame: lines outside blocks and all markers survive verbatim and in order; the reported
      count is the number of begin markers, positive exactly when blocks are present. */
  lemma {:induction false} RewriteKeepsOutline(content: string, servers: Servers)
    requires CleanServers(servers)
    requires Rewrite(content, servers).Ok?
    ensures Outline(Split(Rewrite(content, servers).value.0, '\n'), false) == Outline(Split(content, '\n'), false)
    ensures Rewrite(content, servers).value.1 == CountBegins(Split(content, '\n'))
    ensures Rewrite(content, servers).value.1 > 0
       <==> exists i :: 0 <= i < |Split(content, '\n')| && IsBegin(Split(content, '\n')[i])
  {
    var items := RewriteText(content, servers);
    OutlineOfItems(items);
    OutlineOfItems(RefillAll(items, servers));
    RefillKeepsItemOutline(items, servers);
    CountBeginsPositive(Split(content, '\n'));
  }

  function ItemMarks(item: Item): seq<string> {
    match item
    case Plain(line) => [line]
    case Block(begin, _, end) => [begin, end]
  }

  function ItemOutline(items: seq<Item>): seq<string> {
    if items == [] then [] else ItemMarks(items[0]) + ItemOutline(items[1..])
  }

  lemma {:induction false} RefillKeepsItemOutline(items: seq<Item>, servers: Servers)
    ensures ItemOutline(RefillAll(items, servers)) == ItemOutline(items)
  {
    if items != [] {
      assert RefillAll(items, servers)[1..] == RefillAll(items[1..], servers);
      RefillKeepsItemOutline(items[1..], servers);
    }
  }

  lemma {:induction false} OutlineOfItems(items: seq<Item>)
    requires GoodItems(items)
    ensures Outline(LinesOf(items), false) == ItemOutline(items)
    ensures CountBegins(LinesOf(items)) == CountBlocks(items)
  {
    hide IsBegin, IsEnd, ItemLines, Outline, CountBegins, GoodItem, ItemMarks;
    if items == [] {
      OutlineOfNothing();
    } else {
      OutlineOfItem(items[0], LinesOf(items[1..]));
      OutlineOfItems(items[1..]);
    }
  }

  lemma OutlineOfNothing()
    ensures Outline([], false) == [] && CountBegins([]) == 0
  {
  }

  lemma OutlineOfItem(item: Item, tail: seq<string>)
    requires GoodItem(item)
    ensures Outline(ItemLines(item) + tail, false) == ItemMarks(item) + Outline(tail, false)
    ensures CountBegins(ItemLines(item) + tail) == (if item.Block? then 1 else 0) + CountBegins(tail)
  {
    hide IsBegin, IsEnd, BackendOf, Outline, CountBegins;
    OutlineUnfold(ItemLines(item) + tail);
    var lines := ItemLines(item) + tail;
    match item
    case Plain(line) =>
      assert lines[1..] == tail;
    case Block(begin, body, end) =>
      assert lines[1..] == body + [end] + tail;
      OutlineOfBody(body, end, tail);
  }

  lemma OutlineUnfold(lines: seq<string>)
    requires lines != []
    ensures Outline(lines, false) == [lines[0]] + Outline(lines[1..], IsBegin(lines[0]))
    ensures CountBegins(lines) == (if IsBegin(lines[0]) then 1 else 0) + CountBegins(lines[1..])
  {
    hide IsBegin, IsEnd;
  }

  lemma {:induction false} OutlineOfBody(body: seq<string>, end: string, tail: seq<string>)
    requires IsEnd(end)
    requires forall k :: 0 <= k < |body| ==> !IsBegin(body[k]) && !IsEnd(body[k])
    ensures Outline(body + [end] + tail, true) == [end] + Outline(tail, false)
    ensures CountBegins(body + [end] + tail) == CountBegins(tail)
  {
    hide IsBegin, IsEnd;
    EndIsNotBegin(end);
    var lines := body + [end] + tail;
    if body == [] {
      assert lines[1..] == tail;
    } else {
      assert lines[1..] == body[1..] + [end] + tail;
      OutlineOfBody(body[1..], end, tail);
    }
  }

  lemma {:induction false} CountBeginsPositive(lines: seq<string>)
    ensures CountBegins(lines) > 0 <==> exists i :: 0 <= i < |lines| && IsBegin(lines[i])
  {
    if lines != [] {
      CountBeginsPositive(lines[1..]);
      if i :| 0 <= i < |lines| && IsBegin(lines[i]) {
        if i > 0 {
          assert IsBegin(lines[1..][i - 1]);
        }
      }
      if i :| 0 <= i < |lines[1..]| && IsBegin(lines[1..][i]) {
        assert IsBegin(lines[i + 1]);
      }
    }
  }

  // ---- Reading the written servers back ----

  /** HAProxy's reading of a server line. */
  function ReadServerLine(line: string): Option<Entry> {
    var words := Fields(line);
    if |words| != 3 || words[0] != "server" then None
    else
      match ReadEndpoint(words[2])
      case None => None
      case Some(ap) => Some(Entry(words[1], ap.0, ap.1))
  }

  ghost predicate PlainEntry(e: Entry) {
    CleanEntry(e) && !Bracketed(e.addr) && ':' !in e.port
  }

  lemma ServerLineRoundTrip(indent: string, e: Entry)
    requires PlainEntry(e)
    requires forall i :: 0 <= i < |indent| ==> indent[i] == ' ' || indent[i] == '\t'
    ensures ReadServerLine(ServerLine(indent, e)) == Some(e)
  {
    hide FormatServerEndpoint, ReadEndpoint, Fields, Join, TrimSpace, Bracketed;
    EndpointIsWord(e);
    var endpoint := FormatServerEndpoint(e.addr, e.port);
    ServerLineFields(indent, e.name, endpoint);
    assert ServerLine(indent, e) == indent + ("server" + " " + (e.name + " " + endpoint));
    ServerEndpointRoundTrip(e.addr, e.port);
  }

  lemma ServerLineFields(indent: string, name: string, endpoint: string)
    requires Word(name) && Word(endpoint)
    requires forall i :: 0 <= i < |indent| ==> indent[i] == ' ' || indent[i] == '\t'
    ensures Fields(indent + ("server" + " " + (name + " " + endpoint))) == ["server", name, endpoint]
  {
    hide Fields, Join;
    var words := ["server", name, endpoint];
    FieldsJoin(words);
    JoinThree("server", name, endpoint);
    FieldsAfterIndent(indent, Join(words, ' '));
  }

  lemma JoinThree(a: string, b: string, c: string)
    ensures Join([a, b, c], ' ') == a + " " + (b + " " + c)
  {
    assert [a, b, c][1..] == [b, c] && [b, c][1..] == [c];
    assert Join([c], ' ') == c;
    assert Join([b, c], ' ') == b + " " + c;
  }

  lemma {:induction false} FieldsAfterIndent(indent: string, s: string)
    requires forall i :: 0 <= i < |indent| ==> IsSpace(indent[i])
    ensures Fields(indent + s) == Fields(s)
  {
    if indent == "" {
      assert indent + s == s;
    } else {
      FieldsAfterIndent(indent[1..], s);
      FieldsAfterSpace(indent[1..] + s, indent[0]);
      assert indent + s == [indent[0]] + (indent[1..] + s);
    }
  }

  /** From the begin marker on line i: exactly these servers, in order and indented like the marker,
      then an end marker. */
  ghost predicate BlockHolds(lines: seq<string>, i: nat, entries: seq<Entry>) {
    && i + |entries| + 1 < |lines|
    && (forall k :: 0 <= k < |entries| ==> ReadServerLine(lines[i + 1 + k]) == Some(entries[k]))
    && (forall k :: 0 <= k < |entries| ==> lines[i + 1 + k] == ServerLine(Indent(lines[i]), entries[k]))
    && IsEnd(lines[i + 1 + |entries|])
  }

  ghost predicate BlocksHold(lines: seq<string>, servers: Servers) {
    forall i: nat :: i < |lines| && IsBegin(lines[i]) ==> BlockHolds(lines, i, ServersFor(servers, BackendOf(lines[i])))
  }

  ghost predicate PlainServers(servers: Servers) {
    forall b, i :: b in servers && 0 <= i < |servers[b]| ==> PlainEntry(servers[b][i])
  }

  /** Round trip: after a rewrite every block reads back as exactly its backend's servers. */
  lemma RewriteRoundTrip(content: string, servers: Servers)
    requires PlainServers(servers)
    requires Rewrite(content, servers).Ok?
    ensures BlocksHold(Split(Rewrite(content, servers).value.0, '\n'), servers)
  {
    var items := RewriteText(content, servers);
    RefilledBlocksHold(items, servers);
  }

  lemma {:induction false} RefilledBlocksHold(items: seq<Item>, servers: Servers)
    requires GoodItems(items) && PlainServers(servers)
    ensures BlocksHold(LinesOf(RefillAll(items, servers)), servers)
  {
    hide IsBegin, IsEnd, BackendOf, BlocksHold, GoodItem, ItemLines, Refill, PlainServers;
    if items == [] {
      NoBlocksHold(servers);
    } else {
      RefilledBlocksHold(items[1..], servers);
      assert RefillAll(items, servers) == [Refill(items[0], servers)] + RefillAll(items[1..], servers);
      RefilledBlockHolds(items[0], servers, LinesOf(RefillAll(items[1..], servers)));
    }
  }

  lemma NoBlocksHold(servers: Servers)
    ensures BlocksHold([], servers)
  {
  }

  lemma RefilledBlockHolds(item: Item, servers: Servers, tail: seq<string>)
    requires GoodItem(item) && PlainServers(servers)
    requires BlocksHold(tail, servers)
    ensures BlocksHold(ItemLines(Refill(item, servers)) + tail, servers)
  {
    hide IsBegin, IsEnd, BackendOf, ReadServerLine, ServerLine, PlainEntry;
    var head := ItemLines(Refill(item, servers));
    var lines := head + tail;
    assert forall k :: 0 <= k < |head| ==> lines[k] == head[k];
    if item.Block? {
      RefilledBlock(item, servers);
      assert BlockHolds(lines, 0, ServersFor(servers, BackendOf(item.begin)));
    }
    OtherBlocksHold(head, tail, servers);
    assert item.Plain? ==> head == [item.line];
  }

  lemma OtherBlocksHold(head: seq<string>, tail: seq<string>, servers: Servers)
    requires BlocksHold(tail, servers)
    ensures var lines := head + tail;
      forall i: nat :: |head| <= i < |lines| && IsBegin(lines[i]) ==>
        BlockHolds(lines, i, ServersFor(servers, BackendOf(lines[i])))
  {
    hide BlockHolds, IsBegin, BackendOf, ServersFor;
    var lines := head + tail;
    forall i: nat | |head| <= i < |lines| && IsBegin(lines[i])
      ensures BlockHolds(lines, i, ServersFor(servers, BackendOf(lines[i])))
    {
      var entries := ServersFor(servers, BackendOf(tail[i - |head|]));
      assert BlockHolds(tail, i - |head|, entries);
      assert forall k :: i < k < |lines| ==> lines[k] == tail[k - |head|];
      BlockHoldsShifted(head, tail, i - |head|, entries);
    }
  }

  lemma RefilledBlock(item: Item, servers: Servers)
    requires item.Block? && GoodItem(item) && PlainServers(servers)
    ensures BlockHolds(ItemLines(Refill(item, servers)), 0, ServersFor(servers, BackendOf(item.begin)))
    ensures forall k :: 0 < k < |ItemLines(Refill(item, servers))| ==> !IsBegin(ItemLines(Refill(item, servers))[k])
  {
    hide IsBegin, IsEnd, BackendOf, ReadServerLine, ServerLine, PlainEntry;
    var head := ItemLines(Refill(item, servers));
    var entries := ServersFor(servers, BackendOf(item.begin));
    var indent := Indent(item.begin);
    hide Indent;
    var body := ServerLines(indent, entries);
    assert head == [item.begin] + body + [item.end];
    forall k | 0 <= k < |entries|
      ensures head[1 + k] == ServerLine(indent, entries[k])
      ensures ReadServerLine(head[1 + k]) == Some(entries[k]) && !IsBegin(head[1 + k])
    {
      assert head[1 + k] == body[k];
      PlainIsClean(entries[k]);
      IndentIsBlank(item.begin);
      ServerLineRoundTrip(indent, entries[k]);
      ServerLineIsNoMarker(indent, entries[k]);
    }
    EndIsNotBegin(item.end);
  }

  lemma IndentIsBlank(line: string)
    ensures forall i :: 0 <= i < |Indent(line)| ==> Indent(line)[i] == ' ' || Indent(line)[i] == '\t'
  {
    hide Indent;
  }

  lemma BlockHoldsShifted(head: seq<string>, tail: seq<string>, i: nat, entries: seq<Entry>)
    requires BlockHolds(tail, i, entries)
    ensures BlockHolds(head + tail, |head| + i, entries)
  {
    hide IsEnd, ReadServerLine;
    var lines := head + tail;
    assert forall k :: 0 <= k < |tail| ==> lines[|head| + k] == tail[k];
    forall k | 0 <= k < |entries|
      ensures ReadServerLine(lines[|head| + i + 1 + k]) == Some(entries[k])
    {
      assert lines[|head| + i + 1 + k] == tail[i + 1 + k];
    }
  }

  lemma PlainIsClean(e: Entry)
    requires PlainEntry(e)
    ensures CleanEntry(e)
  {
  }

  // ---- The same, told from the text ----

  /** What a marker line names: blanks around the marker, around the name and between them do not
      matter, and are not even needed between them. */
  lemma MarkerNames(lead: string, gap: string, name: string, trail: string)
    requires AllSpace(lead) && AllSpace(gap) && AllSpace(trail) && Trimmed(name)
    ensures var line := lead + "#DROVE-SERVERS-BEGIN" + gap + name + trail;
      IsBegin(line) && BackendOf(line) == name
  {
    hide TrimSpace;
    var line := lead + "#DROVE-SERVERS-BEGIN" + gap + name + trail;
    if name == "" {
      assert line == lead + "#DROVE-SERVERS-BEGIN" + (gap + trail);
      TrimSpaceIs(lead, "#DROVE-SERVERS-BEGIN", gap + trail);
      assert "#DROVE-SERVERS-BEGIN" + "" == "#DROVE-SERVERS-BEGIN";
      TrimPrefixIs("#DROVE-SERVERS-BEGIN", "", line);
      TrimSpaceIs("", "", "");
      assert "" + "" + "" == "";
    } else {
      var marker := "#DROVE-SERVERS-BEGIN" + gap + name;
      assert line == lead + marker + trail;
      TrimSpaceIs(lead, marker, trail);
      assert marker == "#DROVE-SERVERS-BEGIN" + (gap + name);
      TrimPrefixIs("#DROVE-SERVERS-BEGIN", gap + name, line);
      TrimSpaceIs(gap, name, "");
      assert gap + name + "" == gap + name;
    }
  }

  lemma {:induction false} IndentIs(indent: string, rest: string)
    requires forall i :: 0 <= i < |indent| ==> indent[i] == ' ' || indent[i] == '\t'
    requires rest != "" && rest[0] != ' ' && rest[0] != '\t'
    ensures Indent(indent + rest) == indent
  {
    if indent == "" {
      assert indent + rest == rest;
    } else {
      assert (indent + rest)[1..] == indent[1..] + rest;
      IndentIs(indent[1..], rest);
    }
  }

  lemma MarkerLine(indent: string, name: string)
    requires forall k :: 0 <= k < |indent| ==> indent[k] == ' ' || indent[k] == '\t'
    requires name != "" && Trimmed(name)
    ensures var line := indent + "#DROVE-SERVERS-BEGIN " + name;
      IsBegin(line) && BackendOf(line) == name && Indent(line) == indent
  {
    hide TrimSpace, IsBegin, BackendOf, Indent;
    var line := indent + "#DROVE-SERVERS-BEGIN " + name;
    assert line == indent + "#DROVE-SERVERS-BEGIN" + " " + name + "";
    MarkerNames(indent, " ", name, "");
    IndentIs(indent, "#DROVE-SERVERS-BEGIN " + name);
    assert line == indent + ("#DROVE-SERVERS-BEGIN " + name);
  }

  /** The line of a server in a block: "server", its name, and its endpoint, IPv6 in brackets. */
  ghost function ServerText(indent: string, e: Entry): string {
    indent + "server " + e.name + " " + (if ':' in e.addr then "[" + e.addr + "]:" + e.port else e.addr + ":" + e.port)
  }

  lemma ServerTextIs(indent: string, e: Entry)
    requires PlainEntry(e)
    ensures ServerLine(indent, e) == ServerText(indent, e)
  {
    hide FormatServerEndpoint;
    ServerEndpointText("", e.addr, "", e.port);
    assert "" + e.addr + "" == e.addr;
  }

  /** After a rewrite, a line "#DROVE-SERVERS-BEGIN name", however indented, is followed by exactly the
      servers that the map has for the name, in order and as indented as the marker, and then by the
      end marker. */
  lemma {:induction false} BlocksInText(content: string, servers: Servers, i: nat, indent: string, name: string)
    requires PlainServers(servers) && Rewrite(content, servers).Ok?
    requires forall k :: 0 <= k < |indent| ==> indent[k] == ' ' || indent[k] == '\t'
    requires name != "" && Trimmed(name)
    requires var lines := Split(Rewrite(content, servers).value.0, '\n');
      i < |lines| && lines[i] == indent + "#DROVE-SERVERS-BEGIN " + name
    ensures var lines := Split(Rewrite(content, servers).value.0, '\n');
      var entries := if name in servers then servers[name] else [];
      && i + |entries| + 1 < |lines|
      && (forall k :: 0 <= k < |entries| ==> lines[i + 1 + k] == ServerText(indent, entries[k]))
      && (forall k :: 0 <= k < |entries| ==> ReadServerLine(lines[i + 1 + k]) == Some(entries[k]))
      && TrimSpace(lines[i + 1 + |entries|]) == "#DROVE-SERVERS-END"
  {
    hide Rewrite, Split, TrimSpace, IsBegin, BackendOf, ServerLine, ReadServerLine, PlainEntry, Indent, ServerText,
      Trimmed;
    var lines := Split(Rewrite(content, servers).value.0, '\n');
    RewriteRoundTrip(content, servers);
    MarkerLine(indent, name);
    var entries := if name in servers then servers[name] else [];
    assert BlockHolds(lines, i, entries);
    forall k | 0 <= k < |entries| ensures lines[i + 1 + k] == ServerText(indent, entries[k]) {
      ServerTextIs(indent, entries[k]);
    }
  }

  /** A line is a marker exactly when its trimmed text begins with the one word, or is the other. */
  lemma MarkersInText(lead: string, text: string, trail: string)
    requires AllSpace(lead) && AllSpace(trail) && Trimmed(text)
    ensures IsBegin(lead + text + trail) <==> "#DROVE-SERVERS-BEGIN" <= text
    ensures IsEnd(lead + text + trail) <==> text == "#DROVE-SERVERS-END"
  {
    hide TrimSpace;
    TrimSpaceIs(lead, text, trail);
  }
}
