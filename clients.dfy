/** `scripts/docs/generate_all_doc_stubs.py`: finding the clients of the
    repository, running each client's doc-stub generator, and writing the
    clients index page with one tab for all clients and one per initial. */
module Clients {
  import opened Wrappers
  import opened Seqs
  import opened Text
  import opened Files

  // ---------------------------------------------------------------------
  // Clients and their names

  /** An entry of the repository's `clients` directory: its name, and whether
      `scripts/docs/generate_doc_stubs.py` exists under it. */
  datatype DirEntry = DirEntry(name: string, hasDocScript: bool)

  /** `ClientInfo`: the client's directory (by its name under `clients`), the
      service name shown in the docs, the package name and the name of the
      client's docs folder. */
  datatype ClientInfo = ClientInfo(dir: string, serviceName: string, packageName: string, pathName: string)

  const PackagePrefix := "aws-sdk-"

  /** "aws-sdk-bedrock-runtime" becomes "bedrock-runtime". */
  function PathName(packageName: string): string
  {
    ReplaceAll(packageName, PackagePrefix, "")
  }

  /** "bedrock-runtime" becomes "Bedrock Runtime". */
  function DisplayName(pathName: string): string
  {
    Title(ReplaceAll(pathName, "-", " "))
  }

  function ClientOf(e: DirEntry): ClientInfo
  {
    var path := PathName(e.name);
    ClientInfo(e.name, DisplayName(path), e.name, path)
  }

  function EntryName(e: DirEntry): string
  {
    e.name
  }

  predicate HasDocScript(e: DirEntry)
  {
    e.hasDocScript
  }

  /** The entries that are clients, in name order. */
  function ClientEntries(listing: seq<DirEntry>): seq<DirEntry>
  {
    Filter(SortBy(listing, EntryName), HasDocScript)
  }

  /** The clients a listing of the clients directory holds. */
  function Discovered(listing: seq<DirEntry>): seq<ClientInfo>
  {
    Map(ClientEntries(listing), ClientOf)
  }

  /** A package named with the prefix loses exactly the prefix, so distinct
      such packages get distinct docs folders. */
  lemma PathNameDropsPrefix(rest: string)
    requires forall i :: !OccursAt(rest, PackagePrefix, i)
    ensures PathName(PackagePrefix + rest) == rest
  {
    var s := PackagePrefix + rest;
    assert s[..|PackagePrefix|] == PackagePrefix;
    assert s[|PackagePrefix|..] == rest;
    ReplaceAbsent(rest, PackagePrefix, "");
  }

  /** The display name has no hyphen, is its own title case and stays on one
      line when the package name does. */
  lemma DisplayNameShape(packageName: string)
    ensures '-' !in DisplayName(PathName(packageName))
    ensures Title(DisplayName(PathName(packageName))) == DisplayName(PathName(packageName))
    ensures '\n' !in packageName ==> '\n' !in DisplayName(PathName(packageName))
  {
    var a := PathName(packageName);
    var b := ReplaceAll(a, "-", " ");
    ReplaceChar(a, '-', ' ');
    TitleFromKeeps(b, false);
    TitleIdempotent(b);
    assert forall k :: 0 <= k < |b| ==> Title(b)[k] != '-';
    forall c | c in a
      ensures c in packageName
    {
      ReplaceAllChars(packageName, PackagePrefix, "", c);
    }
    assert forall k :: 0 <= k < |b| && Title(b)[k] == '\n' ==> b[k] == '\n';
  }

  /** A client is found for exactly the entries that hold the doc script. */
  lemma DiscoveredMembers(listing: seq<DirEntry>, c: ClientInfo)
    ensures c in Discovered(listing) <==> exists e :: e in listing && e.hasDocScript && c == ClientOf(e)
  {
    var sorted := SortBy(listing, EntryName);
    var entries := ClientEntries(listing);
    if c in Discovered(listing) {
      var i :| 0 <= i < |entries| && Discovered(listing)[i] == c;
      assert entries[i] in multiset(sorted);
    }
    if e :| e in listing && e.hasDocScript && c == ClientOf(e) {
      assert e in multiset(sorted);
      var k :| 0 <= k < |sorted| && sorted[k] == e;
      var i :| 0 <= i < |entries| && entries[i] == e;
      assert Discovered(listing)[i] == c;
    }
  }

  /** The clients come in order of their package names. */
  lemma DiscoveredSorted(listing: seq<DirEntry>)
    ensures forall i, j :: 0 <= i < j < |Discovered(listing)| ==>
              LexLe(Discovered(listing)[i].packageName, Discovered(listing)[j].packageName)
  {
    FilterSorted(SortBy(listing, EntryName), HasDocScript, EntryName);
  }

  datatype DiscoveryError = ClientsDirNotFound

  /** `discover_clients`: `FileNotFoundError` when the clients directory does
      not exist (`listing` is None), otherwise the entries holding the doc
      script, in sorted order, with their names derived. */
  method DiscoverClients(listing: Option<seq<DirEntry>>) returns (r: Result<seq<ClientInfo>, DiscoveryError>)
    ensures listing.None? ==> r == Failure(ClientsDirNotFound)
    ensures listing.Some? ==> r == Success(Discovered(listing.value))
  {
    if listing.None? {
      return Failure(ClientsDirNotFound);
    }
    var entries := SortBy(listing.value, EntryName);
    var clients: seq<ClientInfo> := [];
    for i := 0 to |entries|
      invariant clients == Map(Filter(entries[..i], HasDocScript), ClientOf)
    {
      FilterMapSnoc(entries, i, HasDocScript, ClientOf);
      if entries[i].hasDocScript {
        clients := clients + [ClientOf(entries[i])];
      }
    }
    assert entries[..|entries|] == entries;
    return Success(clients);
  }

  // ---------------------------------------------------------------------
  // Running each client's generator

  const DocScript := "scripts/docs/generate_doc_stubs.py"

  /** The command `_generate_doc_stub` runs, with paths relative to the
      repository root: the working directory, the script, the client's
      source package and the client's docs folder. */
  datatype StubCommand = StubCommand(cwd: string, script: string, clientDir: string, outputDir: string)

  function ClientPath(c: ClientInfo): string
  {
    "clients/" + c.dir
  }

  function StubCommandOf(c: ClientInfo): StubCommand
  {
    var dir := ClientPath(c);
    StubCommand(dir, dir + "/" + DocScript, dir + "/src/" + ReplaceAll(c.dir, "-", "_"),
                "docs/clients/" + c.pathName)
  }

  /** Clients in different docs folders get different output directories,
      so the parallel runs never write into each other's folder. */
  lemma StubOutputsDistinct(c: ClientInfo, d: ClientInfo)
    requires c.pathName != d.pathName
    ensures StubCommandOf(c).outputDir != StubCommandOf(d).outputDir
  {
    var p := "docs/clients/";
    assert (p + c.pathName)[|p|..] == c.pathName;
    assert (p + d.pathName)[|p|..] == d.pathName;
  }

  /** The generator's source directory has underscores where the package
      name has hyphens, and no hyphen at all. */
  lemma StubSourceName(c: ClientInfo)
    ensures ReplaceAll(c.dir, "-", "_") == Map(c.dir, (ch: char) => if ch == '-' then '_' else ch)
    ensures '-' !in ReplaceAll(c.dir, "-", "_")
  {
    ReplaceChar(c.dir, '-', '_');
  }

  /** `_generate_doc_stub`'s result: the service name, and whether the
      generator's exit code was 0. */
  datatype StubResult = StubResult(serviceName: string, success: bool)

  predicate Failed(r: StubResult)
  {
    !r.success
  }

  function ResultName(r: StubResult): string
  {
    r.serviceName
  }

  /** A completion order: every client's run finishes, each exactly once. */
  predicate CompletionOrder(n: nat, order: seq<nat>)
  {
    |order| == n && (forall k :: 0 <= k < |order| ==> order[k] < n) && (forall i :: 0 <= i < n ==> i in order)
  }

  /** The results in the order the runs complete; `exitCodes[i]` is the exit
      code of the run for `clients[i]`. */
  function Completed(clients: seq<ClientInfo>, exitCodes: seq<int>, order: seq<nat>): (r: seq<StubResult>)
    requires |exitCodes| == |clients| && CompletionOrder(|clients|, order)
    ensures |r| == |order|
  {
    seq(|order|, k requires 0 <= k < |order| =>
      StubResult(clients[order[k]].serviceName, exitCodes[order[k]] == 0))
  }

  /** `generate_all_doc_stubs` after the runs: the service names of the
      failed runs, in completion order, and true exactly when there are
      none. The process pool and the subprocesses are outside the model:
      their exit codes and the completion order are inputs. */
  method GenerateAllDocStubs(clients: seq<ClientInfo>, exitCodes: seq<int>, order: seq<nat>)
    returns (ok: bool, failed: seq<string>)
    requires |exitCodes| == |clients| && CompletionOrder(|clients|, order)
    ensures failed == Map(Filter(Completed(clients, exitCodes, order), Failed), ResultName)
    ensures ok == (failed == [])
  {
    var results := Completed(clients, exitCodes, order);
    failed := [];
    for k := 0 to |results|
      invariant failed == Map(Filter(results[..k], Failed), ResultName)
    {
      FilterMapSnoc(results, k, Failed, ResultName);
      if !results[k].success {
        failed := failed + [results[k].serviceName];
      }
    }
    assert results[..|results|] == results;
    ok := failed == [];
  }

  /** The runs succeed as a whole exactly when every client's generator
      exits with 0. */
  lemma AllDocStubsOk(clients: seq<ClientInfo>, exitCodes: seq<int>, order: seq<nat>)
    requires |exitCodes| == |clients| && CompletionOrder(|clients|, order)
    ensures Filter(Completed(clients, exitCodes, order), Failed) == []
            <==> forall i :: 0 <= i < |clients| ==> exitCodes[i] == 0
  {
    var results := Completed(clients, exitCodes, order);
    if forall i :: 0 <= i < |clients| ==> exitCodes[i] == 0 {
      FilterNone(results, Failed);
    }
    forall i | 0 <= i < |clients| && exitCodes[i] != 0
      ensures Filter(results, Failed) != []
    {
      assert i in order;
      var k :| 0 <= k < |order| && order[k] == i;
      assert Failed(results[k]);
    }
  }

  /** Each failed client is named once for every failed run, and only failed
      clients are named. */
  lemma FailedNames(clients: seq<ClientInfo>, exitCodes: seq<int>, order: seq<nat>, name: string)
    requires |exitCodes| == |clients| && CompletionOrder(|clients|, order)
    ensures name in Map(Filter(Completed(clients, exitCodes, order), Failed), ResultName)
            <==> exists i :: 0 <= i < |clients| && exitCodes[i] != 0 && clients[i].serviceName == name
  {
    var results := Completed(clients, exitCodes, order);
    var f := Filter(results, Failed);
    if name in Map(f, ResultName) {
      var j :| 0 <= j < |f| && f[j].serviceName == name;
      var k :| 0 <= k < |results| && results[k] == f[j];
      assert exitCodes[order[k]] != 0 && clients[order[k]].serviceName == name;
    }
    if i :| 0 <= i < |clients| && exitCodes[i] != 0 && clients[i].serviceName == name {
      assert i in order;
      var k :| 0 <= k < |order| && order[k] == i;
      assert results[k] in f;
      var j :| 0 <= j < |f| && f[j] == results[k];
      assert Map(f, ResultName)[j] == name;
    }
  }

  // ---------------------------------------------------------------------
  // The clients index

  const IndexPath := "docs/clients/index.md"
  const IndexHeader: seq<string> := ["# Available Clients", ""]
  const TableHead := "    | Service | Package Name |"
  const TableRule := "    |----------|--------------|"

  /** A client's row: its service name linking to its docs folder's index,
      and its package name as code. */
  function Row(c: ClientInfo): string
  {
    "    | **[" + c.serviceName + "](" + c.pathName + "/index.md)** | `" + c.packageName + "` |"
  }

  function TabHead(tabName: string): seq<string>
  {
    ["=== \"" + tabName + "\"", "", TableHead, TableRule]
  }

  /** A content tab: its name, the table head, a row per client and a
      blank line. */
  function Tab(tabName: string, clients: seq<ClientInfo>): seq<string>
  {
    TabHead(tabName) + Map(clients, Row) + [""]
  }

  /** The tab a client is grouped under: the first character of its service
      name, upper-cased. (An empty service name has no tab: the index fails
      on it before any tab is built, and the space stands in.) */
  function Letter(c: ClientInfo): char
  {
    if c.serviceName == [] then ' ' else Upper(c.serviceName[0])
  }

  function HasLetter(l: char): ClientInfo -> bool
  {
    c => Letter(c) == l
  }

  predicate Named(c: ClientInfo)
  {
    c.serviceName != []
  }

  /** A letter as the one-character string Python sorts it as. */
  function LetterKey(l: char): string
  {
    [l]
  }

  /** The labels of the letter tabs: the letters in use, sorted. */
  function Letters(clients: seq<ClientInfo>): seq<char>
  {
    SortBy(Dedup(Map(clients, Letter)), LetterKey)
  }

  /** One tab per letter, each listing that letter's clients in order. */
  function LetterTabs(letters: seq<char>, clients: seq<ClientInfo>): seq<string>
    decreases |letters|
  {
    if letters == [] then []
    else
      var l := letters[|letters| - 1];
      LetterTabs(letters[..|letters| - 1], clients) + Tab([l], Filter(clients, HasLetter(l)))
  }

  /** The lines of `docs/clients/index.md`. */
  function IndexLines(clients: seq<ClientInfo>): seq<string>
  {
    IndexHeader + Tab("All", clients) + LetterTabs(Letters(clients), clients)
  }

  /** The letter tabs come in sorted order, each letter once, one for every
      initial in use and none for an initial nobody has. */
  lemma LettersShape(clients: seq<ClientInfo>)
    ensures forall i, j :: 0 <= i < j < |Letters(clients)| ==> Letters(clients)[i] < Letters(clients)[j]
    ensures forall l :: l in Letters(clients) <==> exists c :: c in clients && Letter(c) == l
  {
    var letters := Map(clients, Letter);
    var d := Dedup(letters);
    var sorted := Letters(clients);
    DistinctPermutation(d, sorted);
    forall i, j | 0 <= i < j < |sorted|
      ensures sorted[i] < sorted[j]
    {
      assert LexLe(LetterKey(sorted[i]), LetterKey(sorted[j]));
    }
    forall l
      ensures l in sorted <==> exists c :: c in clients && Letter(c) == l
    {
      if l in sorted {
        assert l in multiset(d);
        var i :| 0 <= i < |letters| && letters[i] == l;
        assert clients[i] in clients;
      }
      if c :| c in clients && Letter(c) == l {
        var i :| 0 <= i < |clients| && clients[i] == c;
        assert letters[i] == l;
        assert l in multiset(sorted);
      }
    }
  }

  /** A client is listed under its own letter's tab and under no other. */
  lemma ClientUnderOwnLetter(clients: seq<ClientInfo>, c: ClientInfo, l: char)
    requires c in clients
    ensures c in Filter(clients, HasLetter(l)) <==> l == Letter(c)
  {
    if l == Letter(c) {
      var i :| 0 <= i < |clients| && clients[i] == c;
      assert HasLetter(l)(clients[i]);
    }
  }

  /** The index file splits back into the index's lines when no name holds a
      newline. */
  lemma IndexFileLines(clients: seq<ClientInfo>)
    requires forall i :: 0 <= i < |IndexLines(clients)| ==> '\n' !in IndexLines(clients)[i]
    ensures Split(LinesText(IndexLines(clients)), '\n') == IndexLines(clients) + [""]
  {
    LinesTextSplit(IndexLines(clients));
  }

  /** `lines + [row(c) for c in clients]`. */
  method AppendRows(lines: seq<string>, clients: seq<ClientInfo>) returns (r: seq<string>)
    ensures r == lines + Map(clients, Row)
  {
    r := lines;
    for i := 0 to |clients|
      invariant r == lines + Map(clients[..i], Row)
    {
      MapPrefixSnoc(clients, i, Row);
      r := r + [Row(clients[i])];
    }
    assert clients[..|clients|] == clients;
  }

  /** Appends one content tab. */
  method AppendTab(lines: seq<string>, tabName: string, clients: seq<ClientInfo>) returns (r: seq<string>)
    ensures r == lines + Tab(tabName, clients)
  {
    r := lines + ["=== \"" + tabName + "\"", "", TableHead, TableRule];
    r := AppendRows(r, clients);
    r := r + [""];
  }

  datatype IndexError = EmptyServiceName

  /** The groups the grouping loop builds: every client appended to its
      letter's list, the list opened on the letter's first client. */
  function Groups(s: seq<ClientInfo>): map<char, seq<ClientInfo>>
    decreases |s|
  {
    if s == [] then map[] else AddToGroup(Groups(s[..|s| - 1]), s[|s| - 1])
  }

  /** `grouped[letter].append(client)` on a `defaultdict(list)`. */
  function AddToGroup(g: map<char, seq<ClientInfo>>, c: ClientInfo): map<char, seq<ClientInfo>>
  {
    g[Letter(c) := (if Letter(c) in g then g[Letter(c)] else []) + [c]]
  }

  /** The letters met, in the order first met. */
  lemma LettersSnoc(prefix: seq<ClientInfo>, c: ClientInfo)
    ensures Map(prefix + [c], Letter) == Map(prefix, Letter) + [Letter(c)]
    ensures Dedup(Map(prefix + [c], Letter))
            == if Letter(c) in Dedup(Map(prefix, Letter)) then Dedup(Map(prefix, Letter))
               else Dedup(Map(prefix, Letter)) + [Letter(c)]
  {
    MapAppend(prefix, [c], Letter);
    assert Map([c], Letter) == [Letter(c)];
    DedupSnoc(Map(prefix, Letter), Letter(c));
  }

  /** A letter no client of `s` has selects none of them. */
  lemma NewLetterEmpty(s: seq<ClientInfo>, letter: char)
    requires letter !in Map(s, Letter)
    ensures Filter(s, HasLetter(letter)) == []
  {
    var m := Map(s, Letter);
    forall k | 0 <= k < |s|
      ensures !HasLetter(letter)(s[k])
    {
      assert m[k] in m;
    }
    FilterNone(s, HasLetter(letter));
  }

  /** The grouping has a group for exactly the letters in use. */
  lemma {:induction false} GroupsKeys(s: seq<ClientInfo>)
    ensures forall l :: l in Groups(s) <==> l in Map(s, Letter)
    decreases |s|
  {
    if s != [] {
      var init, c := s[..|s| - 1], s[|s| - 1];
      assert s == init + [c];
      GroupsKeys(init);
      LettersSnoc(init, c);
    }
  }

  /** Each group lists that letter's clients in their original order. */
  lemma {:induction false} GroupsFilter(s: seq<ClientInfo>)
    ensures forall l :: l in Groups(s) ==> Groups(s)[l] == Filter(s, HasLetter(l))
    decreases |s|
  {
    if s != [] {
      var init, c := s[..|s| - 1], s[|s| - 1];
      assert s == init + [c];
      GroupsFilter(init);
      var g := Groups(init);
      forall l | l in Groups(s)
        ensures Groups(s)[l] == Filter(s, HasLetter(l))
      {
        FilterSnoc(init, c, HasLetter(l));
        if l == Letter(c) && l !in g {
          GroupsKeys(init);
          NewLetterEmpty(init, l);
        }
      }
    }
  }

  lemma GroupsByLetter(s: seq<ClientInfo>)
    ensures forall l :: l in Groups(s) <==> l in Map(s, Letter)
    ensures forall l :: l in Groups(s) ==> Groups(s)[l] == Filter(s, HasLetter(l))
  {
    GroupsKeys(s);
    GroupsFilter(s);
  }

  /** One step of the grouping loop, stated on prefixes of the clients. */
  lemma GroupStep(s: seq<ClientInfo>, i: nat)
    requires i < |s|
    ensures Groups(s[..i + 1]) == AddToGroup(Groups(s[..i]), s[i])
  {
    assert s[..i + 1][..i] == s[..i];
  }

  /** One step of the loop's record of the letters met. */
  lemma LetterStep(s: seq<ClientInfo>, i: nat)
    requires i < |s|
    ensures Dedup(Map(s[..i + 1], Letter))
            == if Letter(s[i]) in Map(s[..i], Letter) then Dedup(Map(s[..i], Letter))
               else Dedup(Map(s[..i], Letter)) + [Letter(s[i])]
  {
    assert s[..i + 1] == s[..i] + [s[i]];
    LettersSnoc(s[..i], s[i]);
  }

  /** The body of the grouping loop for a client with a service name:
      `grouped[letter].append(client)`, the `defaultdict` opening the list
      (and recording the new key) on the letter's first client. */
  method GroupClient(clients: seq<ClientInfo>, i: nat, order: seq<char>, grouped: map<char, seq<ClientInfo>>)
    returns (order': seq<char>, grouped': map<char, seq<ClientInfo>>)
    requires i < |clients| && Named(clients[i])
    requires order == Dedup(Map(clients[..i], Letter)) && grouped == Groups(clients[..i])
    ensures order' == Dedup(Map(clients[..i + 1], Letter)) && grouped' == Groups(clients[..i + 1])
  {
    var c := clients[i];
    var letter := Upper(c.serviceName[0]);
    assert letter == Letter(c);
    GroupStep(clients, i);
    LetterStep(clients, i);
    assert letter in grouped <==> letter in Map(clients[..i], Letter) by {
      GroupsByLetter(clients[..i]);
    }
    order' := order;
    if letter !in grouped {
      order' := order + [letter];
    }
    var group := if letter in grouped then grouped[letter] else [];
    grouped' := grouped[letter := group + [c]];
  }

  /** The loop that groups the clients by letter: `grouped` is the
      `defaultdict`, `order` its keys in insertion order.
      `service_name[0]` raises `IndexError` on an empty service name. */
  method GroupByLetter(clients: seq<ClientInfo>)
    returns (r: Result<(seq<char>, map<char, seq<ClientInfo>>), IndexError>)
    ensures r.Failure? <==> exists c :: c in clients && !Named(c)
    ensures r.Success? ==> r.value.0 == Dedup(Map(clients, Letter)) && r.value.1 == Groups(clients)
  {
    var order: seq<char> := [];
    var grouped: map<char, seq<ClientInfo>> := map[];
    for i := 0 to |clients|
      invariant forall c :: c in clients[..i] ==> Named(c)
      invariant order == Dedup(Map(clients[..i], Letter))
      invariant grouped == Groups(clients[..i])
    {
      if clients[i].serviceName == [] {
        assert clients[i] in clients;
        return Failure(EmptyServiceName);
      }
      assert clients[..i + 1] == clients[..i] + [clients[i]];
      order, grouped := GroupClient(clients, i, order, grouped);
    }
    assert clients[..|clients|] == clients;
    return Success((order, grouped));
  }

  lemma LetterTabsSnoc(letters: seq<char>, j: nat, clients: seq<ClientInfo>)
    requires j < |letters|
    ensures LetterTabs(letters[..j + 1], clients)
            == LetterTabs(letters[..j], clients) + Tab([letters[j]], Filter(clients, HasLetter(letters[j])))
  {
    assert letters[..j + 1][..j] == letters[..j];
  }

  /** The lines `generate_clients_index` builds: the header, the "All" tab,
      then the letter tabs in sorted order; `IndexError` on an empty service
      name. */
  method BuildIndexLines(clients: seq<ClientInfo>) returns (r: Result<seq<string>, IndexError>)
    ensures r.Failure? <==> exists c :: c in clients && !Named(c)
    ensures r.Success? ==> r.value == IndexLines(clients)
  {
    var lines := IndexHeader;
    var g := GroupByLetter(clients);
    if g.Failure? {
      return Failure(g.error);
    }
    var (order, grouped) := g.value;
    assert forall l :: l in order ==> l in grouped && grouped[l] == Filter(clients, HasLetter(l)) by {
      GroupsByLetter(clients);
    }
    lines := AppendTab(lines, "All", clients);
    var letters := SortBy(order, LetterKey);
    assert forall l :: l in letters ==> l in order by {
      forall l | l in letters ensures l in order {
        assert l in multiset(letters);
      }
    }
    lines := AppendLetterTabs(lines, letters, grouped, clients);
    return Success(lines);
  }

  /** The letter tabs, one after the other, each built from its group. */
  method AppendLetterTabs(lines: seq<string>, letters: seq<char>, grouped: map<char, seq<ClientInfo>>,
                          clients: seq<ClientInfo>)
    returns (r: seq<string>)
    requires forall l :: l in letters ==> l in grouped && grouped[l] == Filter(clients, HasLetter(l))
    ensures r == lines + LetterTabs(letters, clients)
  {
    r := lines;
    for j := 0 to |letters|
      invariant r == lines + LetterTabs(letters[..j], clients)
    {
      var l := letters[j];
      LetterTabsSnoc(letters, j, clients);
      r := AppendTab(r, [l], grouped[l]);
      Regroup(lines, LetterTabs(letters[..j], clients), Tab([l], grouped[l]));
    }
    assert letters[..|letters|] == letters;
  }

  /** `generate_clients_index`: fails with `IndexError` (nothing written)
      when a service name is empty; otherwise writes the index page and
      reports whether the write succeeded. */
  method GenerateClientsIndex(clients: seq<ClientInfo>, docs: Directory) returns (r: Result<bool, IndexError>)
    modifies docs
    ensures r.Failure? <==> exists c :: c in clients && !Named(c)
    ensures r.Failure? ==> docs.files == old(docs.files)
    ensures r.Success? ==> r.value == (IndexPath !in docs.unwritable)
    ensures r.Success? ==> docs.files == if r.value then old(docs.files)[IndexPath := LinesText(IndexLines(clients))]
                                         else old(docs.files)
  {
    var lines :- BuildIndexLines(clients);
    var ok := docs.Write(IndexPath, LinesText(lines));
    return Success(ok);
  }
}
