/** The single-client documentation generator: the service name it derives
    from the client directory, the lines it builds for each page, where it
    writes each page under the output directory, and what the output
    directory holds after a run. A write that raises `OSError` stops the run;
    the analysis' exceptions are not caught and end it before anything is
    written. */
module Generator {
  import opened Wrappers
  import opened Seqs
  import opened Text
  import opened Griffe
  import opened Analysis
  import opened Pages
  import opened Files

  // ---------------------------------------------------------------------
  // Service name

  /** The service name shown in titles and breadcrumbs: the directory name
      with every "aws_sdk_" removed, underscores turned into spaces, then
      title-cased (`"aws_sdk_bedrock_runtime"` gives `"Bedrock Runtime"`). */
  function ServiceName(dirName: string): string
  {
    Title(ReplaceAll(ReplaceAll(dirName, "aws_sdk_", ""), "_", " "))
  }

  /** The service name has no underscore left, is already title-cased, and
      stays on one line when the directory name does. */
  lemma ServiceNameShape(dirName: string)
    ensures '_' !in ServiceName(dirName)
    ensures Title(ServiceName(dirName)) == ServiceName(dirName)
    ensures NoNewline(dirName) ==> NoNewline(ServiceName(dirName))
  {
    var a := ReplaceAll(dirName, "aws_sdk_", "");
    var b := ReplaceAll(a, "_", " ");
    ReplaceChar(a, '_', ' ');
    TitleFromKeeps(b, false);
    TitleIdempotent(b);
    assert forall k :: 0 <= k < |b| ==> Title(b)[k] != '_';
    forall c | c in a
      ensures c in dirName
    {
      ReplaceAllChars(dirName, "aws_sdk_", "", c);
    }
    forall c | c in b
      ensures c in a || c == ' '
    {
      ReplaceAllChars(a, "_", " ", c);
    }
    assert forall k :: 0 <= k < |b| && Title(b)[k] == '\n' ==> b[k] == '\n';
  }

  // ---------------------------------------------------------------------
  // Writes and the output directory

  /** One file written by the generator: its path, relative to the output
      directory, and its text. */
  datatype FileWrite = FileWrite(path: string, content: string)

  /** The files of the output directory after a run of writes; `ok` is false
      when a write raised `OSError`, and then no later write was attempted. */
  datatype Outcome = Outcome(files: map<string, string>, ok: bool)

  /** One more write after `o`: skipped after a failure, a failure of its
      own when its path cannot be written, the file replaced otherwise. */
  function Step(o: Outcome, unwritable: set<string>, w: FileWrite): Outcome
  {
    if !o.ok then o
    else if w.path in unwritable then Outcome(o.files, false)
    else Outcome(o.files[w.path := w.content], true)
  }

  /** The writes `ws`, in order, into a directory holding `files`. */
  function Apply(files: map<string, string>, unwritable: set<string>, ws: seq<FileWrite>): Outcome
    decreases |ws|
  {
    if ws == [] then Outcome(files, true)
    else Step(Apply(files, unwritable, ws[..|ws| - 1]), unwritable, ws[|ws| - 1])
  }

  lemma ApplySnoc(files: map<string, string>, unwritable: set<string>, ws: seq<FileWrite>, w: FileWrite)
    ensures Apply(files, unwritable, ws + [w]) == Step(Apply(files, unwritable, ws), unwritable, w)
  {
    assert (ws + [w])[..|ws|] == ws;
  }

  /** Two runs of writes one after the other: the second starts from what
      the first left, and is not attempted when the first failed. */
  lemma {:induction false} ApplyAppend(files: map<string, string>, unwritable: set<string>, a: seq<FileWrite>, b: seq<FileWrite>)
    ensures Apply(files, unwritable, a + b) ==
      var first := Apply(files, unwritable, a);
      if first.ok then Apply(first.files, unwritable, b) else first
    decreases |b|
  {
    if b == [] {
      assert a + b == a;
    } else {
      var b' := b[..|b| - 1];
      var w := b[|b| - 1];
      assert a + b == (a + b') + [w];
      assert b == b' + [w];
      ApplySnoc(files, unwritable, a + b', w);
      ApplyAppend(files, unwritable, a, b');
      var first := Apply(files, unwritable, a);
      if first.ok {
        ApplySnoc(first.files, unwritable, b', w);
      } else {
        assert !Apply(files, unwritable, a + b').ok;
      }
    }
  }

  /** A run succeeds exactly when none of its paths is unwritable. */
  lemma {:induction false} ApplyOk(files: map<string, string>, unwritable: set<string>, ws: seq<FileWrite>)
    ensures Apply(files, unwritable, ws).ok <==> forall i :: 0 <= i < |ws| ==> ws[i].path !in unwritable
    decreases |ws|
  {
    if ws != [] {
      var init := ws[..|ws| - 1];
      ApplyOk(files, unwritable, init);
      assert forall i :: 0 <= i < |init| ==> init[i] == ws[i];
    }
  }

  /** A run stops at its first unwritable path: the directory holds what the
      writes before it produced, and nothing after it is written. */
  lemma {:induction false} ApplyStopsAt(files: map<string, string>, unwritable: set<string>, ws: seq<FileWrite>, i: nat)
    requires i < |ws| && ws[i].path in unwritable
    requires forall j :: 0 <= j < i ==> ws[j].path !in unwritable
    ensures Apply(files, unwritable, ws) == Outcome(Apply(files, unwritable, ws[..i]).files, false)
    decreases |ws|
  {
    var init := ws[..|ws| - 1];
    if i == |ws| - 1 {
      ApplyOk(files, unwritable, init);
      assert init == ws[..i];
    } else {
      assert init[i] == ws[i];
      assert init[..i] == ws[..i];
      ApplyStopsAt(files, unwritable, init, i);
    }
  }

  /** A path that no write names keeps its file, or its absence. */
  lemma {:induction false} ApplyKeeps(files: map<string, string>, unwritable: set<string>, ws: seq<FileWrite>, p: string)
    requires forall i :: 0 <= i < |ws| ==> ws[i].path != p
    ensures (p in Apply(files, unwritable, ws).files) == (p in files)
    ensures p in files ==> Apply(files, unwritable, ws).files[p] == files[p]
    decreases |ws|
  {
    if ws != [] {
      var init := ws[..|ws| - 1];
      assert forall i :: 0 <= i < |init| ==> init[i] == ws[i];
      ApplyKeeps(files, unwritable, init, p);
    }
  }

  /** After a successful run, each path holds the text of the last write to
      it. */
  lemma {:induction false} ApplyLast(files: map<string, string>, unwritable: set<string>, ws: seq<FileWrite>, i: nat)
    requires Apply(files, unwritable, ws).ok
    requires i < |ws| && forall j :: i < j < |ws| ==> ws[j].path != ws[i].path
    ensures ws[i].path in Apply(files, unwritable, ws).files
    ensures Apply(files, unwritable, ws).files[ws[i].path] == ws[i].content
    decreases |ws|
  {
    var init := ws[..|ws| - 1];
    if i < |ws| - 1 {
      assert init[i] == ws[i];
      assert forall j :: i < j < |init| ==> init[j] == ws[j];
      ApplyLast(files, unwritable, init, i);
    }
  }

  /** The paths a run writes. */
  function Paths(ws: seq<FileWrite>): set<string>
  {
    set i | 0 <= i < |ws| :: ws[i].path
  }

  /** A successful run adds exactly its own paths to the directory. */
  lemma {:induction false} ApplyDomain(files: map<string, string>, unwritable: set<string>, ws: seq<FileWrite>)
    requires Apply(files, unwritable, ws).ok
    ensures Apply(files, unwritable, ws).files.Keys == files.Keys + Paths(ws)
    decreases |ws|
  {
    if ws != [] {
      var init := ws[..|ws| - 1];
      ApplyDomain(files, unwritable, init);
      assert Paths(ws) == Paths(init) + {ws[|ws| - 1].path} by {
        assert forall i :: 0 <= i < |init| ==> init[i] == ws[i];
      }
    }
  }

  // ---------------------------------------------------------------------
  // Pages and where they go

  const IndexPath := "index.md"

  /** `<folder>/<name>.md`. */
  function PagePath(folder: string, name: string): string
  {
    folder + "/" + name + ".md"
  }

  function IndexWrite(serviceName: string, c: ClientInfo): FileWrite
  {
    FileWrite(IndexPath, Join(RenderLines(IndexPage(serviceName, c)), "\n"))
  }

  function OperationWrite(serviceName: string, op: OperationInfo): FileWrite
  {
    FileWrite(PagePath("operations", op.name), PageText(Breadcrumb(serviceName, "Operations", op.name), OperationPage(op)))
  }

  /** A structure, error or enum page; the breadcrumb names the category
      title-cased. */
  function TypeWrite(serviceName: string, category: string, sectionTitle: string, members: Option<bool>, item: TypeInfo): FileWrite
  {
    FileWrite(PagePath(category, item.name),
              PageText(Breadcrumb(serviceName, Title(category), item.name), TypePage(item, sectionTitle, members)))
  }

  function UnionWrite(serviceName: string, u: UnionInfo): FileWrite
  {
    FileWrite(PagePath("unions", u.name), PageText(Breadcrumb(serviceName, "Unions", u.name), UnionPage(u)))
  }

  function OperationWriteOf(serviceName: string): OperationInfo -> FileWrite
  {
    op => OperationWrite(serviceName, op)
  }

  function TypeWriteOf(serviceName: string, category: string, sectionTitle: string, members: Option<bool>): TypeInfo -> FileWrite
  {
    item => TypeWrite(serviceName, category, sectionTitle, members, item)
  }

  function UnionWriteOf(serviceName: string): UnionInfo -> FileWrite
  {
    u => UnionWrite(serviceName, u)
  }

  function OperationWrites(serviceName: string, ops: seq<OperationInfo>): seq<FileWrite>
  {
    Map(ops, OperationWriteOf(serviceName))
  }

  function TypeWrites(serviceName: string, items: seq<TypeInfo>, category: string, sectionTitle: string, members: Option<bool>): seq<FileWrite>
  {
    Map(items, TypeWriteOf(serviceName, category, sectionTitle, members))
  }

  function UnionWrites(serviceName: string, unions: seq<UnionInfo>): seq<FileWrite>
  {
    Map(unions, UnionWriteOf(serviceName))
  }

  function StructureWrites(serviceName: string, m: ModelsInfo): seq<FileWrite>
  {
    TypeWrites(serviceName, m.structures, "structures", "Structure Class", None)
  }

  function ErrorWrites(serviceName: string, m: ModelsInfo): seq<FileWrite>
  {
    TypeWrites(serviceName, m.errors, "errors", "Error Class", None)
  }

  function EnumWrites(serviceName: string, m: ModelsInfo): seq<FileWrite>
  {
    TypeWrites(serviceName, m.enums, "enums", "Enum Class", Some(true))
  }

  /** Every write of a client's documentation, in the order they happen:
      the index, the operations, the structures, errors and enums, then the
      unions. */
  function ClientWrites(serviceName: string, c: ClientInfo): seq<FileWrite>
  {
    Layout(IndexWrite(serviceName, c), OperationWrites(serviceName, c.operations),
           StructureWrites(serviceName, c.models), ErrorWrites(serviceName, c.models),
           EnumWrites(serviceName, c.models), UnionWrites(serviceName, c.models.unions))
  }

  /** The order of the writes: the index, then each category in turn. */
  function Layout(index: FileWrite, ops: seq<FileWrite>, st: seq<FileWrite>, er: seq<FileWrite>,
                  en: seq<FileWrite>, un: seq<FileWrite>): seq<FileWrite>
  {
    [index] + ops + st + er + en + un
  }

  // ---------------------------------------------------------------------
  // Which file ends up where

  predicate NoSlash(s: string)
  {
    '/' !in s
  }

  /** `p` names a file directly or indirectly under `folder`. */
  predicate InFolder(p: string, folder: string)
  {
    |folder| < |p| && p[..|folder|] == folder && p[|folder|] == '/'
  }

  lemma PagePathInFolder(folder: string, name: string)
    ensures InFolder(PagePath(folder, name), folder)
  {
    var p := PagePath(folder, name);
    assert p == folder + ("/" + name + ".md");
  }

  /** A path lies under one top-level folder only. */
  lemma FolderUnique(p: string, a: string, b: string)
    requires NoSlash(a) && NoSlash(b)
    ensures InFolder(p, a) && InFolder(p, b) ==> a == b
  {
    if InFolder(p, a) && InFolder(p, b) {
      assert forall k :: 0 <= k < |b| ==> p[k] == b[k];
      assert forall k :: 0 <= k < |a| ==> p[k] == a[k];
    }
  }

  /** Pages of one folder with different names have different paths. */
  lemma PagePathInjective(folder: string, a: string, b: string)
    ensures PagePath(folder, a) == PagePath(folder, b) ==> a == b
  {
    var p := PagePath(folder, a);
    var q := PagePath(folder, b);
    assert a == p[|folder| + 1..|p| - 3];
    assert b == q[|folder| + 1..|q| - 3];
  }

  predicate AllInFolder(ws: seq<FileWrite>, folder: string)
  {
    forall k :: 0 <= k < |ws| ==> InFolder(ws[k].path, folder)
  }

  /** No write of `ws` is to `p`. */
  predicate Avoids(ws: seq<FileWrite>, p: string)
  {
    forall k :: 0 <= k < |ws| ==> ws[k].path != p
  }

  lemma AvoidsAppend(a: seq<FileWrite>, b: seq<FileWrite>, p: string)
    requires Avoids(a, p) && Avoids(b, p)
    ensures Avoids(a + b, p)
  {
    assert forall k :: 0 <= k < |a| + |b| ==> (a + b)[k] == if k < |a| then a[k] else b[k - |a|];
  }

  /** Writes under one folder never touch a path under another. */
  lemma OtherFolderAvoids(ws: seq<FileWrite>, a: string, p: string, b: string)
    requires NoSlash(a) && NoSlash(b) && a != b
    requires AllInFolder(ws, a) && InFolder(p, b)
    ensures Avoids(ws, p)
  {
    FolderUnique(p, a, b);
  }

  /** Writes under a folder never touch the index. */
  lemma FolderAvoidsIndex(ws: seq<FileWrite>, a: string)
    requires AllInFolder(ws, a)
    ensures Avoids(ws, IndexPath)
  {
    assert NoSlash(IndexPath);
  }

  /** `i` is the last position holding its name. */
  predicate LastOfName(names: seq<string>, i: nat)
  {
    i < |names| && forall j :: i < j < |names| ==> names[j] != names[i]
  }

  /** The page of the last item of a category named `names[i]` holds that
      item's text when the whole run succeeds and nothing after the category
      writes into its folder. */
  lemma CategoryPageWritten(files: map<string, string>, unwritable: set<string>, x: seq<FileWrite>,
                            cat: seq<FileWrite>, y: seq<FileWrite>, folder: string, names: seq<string>, i: nat)
    requires Apply(files, unwritable, x + cat + y).ok
    requires |cat| == |names| && forall k :: 0 <= k < |cat| ==> cat[k].path == PagePath(folder, names[k])
    requires LastOfName(names, i)
    requires Avoids(y, PagePath(folder, names[i]))
    ensures PagePath(folder, names[i]) in Apply(files, unwritable, x + cat + y).files
    ensures Apply(files, unwritable, x + cat + y).files[PagePath(folder, names[i])] == cat[i].content
  {
    var ws := x + cat + y;
    var p := PagePath(folder, names[i]);
    forall j | |x| + i < j < |ws|
      ensures ws[j].path != p
    {
      if j < |x| + |cat| {
        assert ws[j] == cat[j - |x|];
        PagePathInjective(folder, names[j - |x|], names[i]);
      } else {
        assert ws[j] == y[j - |x| - |cat|];
      }
    }
    assert ws[|x| + i] == cat[i];
    ApplyLast(files, unwritable, ws, |x| + i);
  }

  lemma OperationsInFolder(serviceName: string, ops: seq<OperationInfo>)
    ensures AllInFolder(OperationWrites(serviceName, ops), "operations")
  {
    forall k | 0 <= k < |ops| { PagePathInFolder("operations", ops[k].name); }
  }

  lemma TypesInFolder(serviceName: string, items: seq<TypeInfo>, category: string, sectionTitle: string, members: Option<bool>)
    ensures AllInFolder(TypeWrites(serviceName, items, category, sectionTitle, members), category)
  {
    forall k | 0 <= k < |items| { PagePathInFolder(category, items[k].name); }
  }

  lemma UnionsInFolder(serviceName: string, unions: seq<UnionInfo>)
    ensures AllInFolder(UnionWrites(serviceName, unions), "unions")
  {
    forall k | 0 <= k < |unions| { PagePathInFolder("unions", unions[k].name); }
  }

  // ---------------------------------------------------------------------
  // What a successful run leaves in the output directory

  /** Every model section of the index is titled with `title()` of its
      folder, so the breadcrumb of a page in that folder names the section of
      the index that links to it. */
  lemma SectionTitlesMatchBreadcrumbs(m: ModelsInfo)
    ensures forall k :: 0 <= k < |ModelSections(m)| ==> ModelSections(m)[k].title == Title(ModelSections(m)[k].folder)
  {
    var sections := ModelSections(m);
    forall k | 0 <= k < |sections|
      ensures sections[k].title == Title(sections[k].folder)
    {
      if k == 0 {
        StructuresTitle();
      } else if k == 1 {
        ErrorsTitle();
      } else if k == 2 {
        UnionsTitle();
      } else {
        EnumsTitle();
      }
    }
  }

  lemma StructuresTitle()
    ensures Title("structures") == "Structures"
  {
  }

  lemma ErrorsTitle()
    ensures Title("errors") == "Errors"
  {
  }

  lemma UnionsTitle()
    ensures Title("unions") == "Unions"
  {
  }

  lemma EnumsTitle()
    ensures Title("enums") == "Enums"
  {
  }

  /** `ws[k]` is the page of `names[k]` under `folder`, for every `k`. */
  predicate NamedPages(ws: seq<FileWrite>, folder: string, names: seq<string>)
  {
    |ws| == |names| && forall k :: 0 <= k < |ws| ==> ws[k].path == PagePath(folder, names[k])
  }

  lemma OperationPages(serviceName: string, ops: seq<OperationInfo>)
    ensures NamedPages(OperationWrites(serviceName, ops), "operations", Map(ops, OperationName))
  {
  }

  lemma TypePages(serviceName: string, items: seq<TypeInfo>, category: string, sectionTitle: string, members: Option<bool>)
    ensures NamedPages(TypeWrites(serviceName, items, category, sectionTitle, members), category, Map(items, NameOfType))
  {
  }

  lemma UnionPages(serviceName: string, unions: seq<UnionInfo>)
    ensures NamedPages(UnionWrites(serviceName, unions), "unions", Map(unions, UnionName))
  {
  }

  /** Where each category of the layout writes. */
  predicate Foldered(index: FileWrite, ops: seq<FileWrite>, st: seq<FileWrite>, er: seq<FileWrite>,
                     en: seq<FileWrite>, un: seq<FileWrite>)
  {
    && index.path == IndexPath
    && AllInFolder(ops, "operations") && AllInFolder(st, "structures") && AllInFolder(er, "errors")
    && AllInFolder(en, "enums") && AllInFolder(un, "unions")
  }

  lemma ClientFoldered(serviceName: string, c: ClientInfo)
    ensures Foldered(IndexWrite(serviceName, c), OperationWrites(serviceName, c.operations),
                     StructureWrites(serviceName, c.models), ErrorWrites(serviceName, c.models),
                     EnumWrites(serviceName, c.models), UnionWrites(serviceName, c.models.unions))
  {
    OperationsInFolder(serviceName, c.operations);
    TypesInFolder(serviceName, c.models.structures, "structures", "Structure Class", None);
    TypesInFolder(serviceName, c.models.errors, "errors", "Error Class", None);
    TypesInFolder(serviceName, c.models.enums, "enums", "Enum Class", Some(true));
    UnionsInFolder(serviceName, c.models.unions);
  }

  lemma LayoutIndexWritten(files: map<string, string>, unwritable: set<string>, index: FileWrite, ops: seq<FileWrite>,
                           st: seq<FileWrite>, er: seq<FileWrite>, en: seq<FileWrite>, un: seq<FileWrite>)
    requires Apply(files, unwritable, Layout(index, ops, st, er, en, un)).ok
    requires Foldered(index, ops, st, er, en, un)
    ensures IndexPath in Apply(files, unwritable, Layout(index, ops, st, er, en, un)).files
    ensures Apply(files, unwritable, Layout(index, ops, st, er, en, un)).files[IndexPath] == index.content
  {
    FolderAvoidsIndex(ops, "operations");
    FolderAvoidsIndex(st, "structures");
    FolderAvoidsIndex(er, "errors");
    FolderAvoidsIndex(en, "enums");
    FolderAvoidsIndex(un, "unions");
    AvoidsAppend(ops, st, IndexPath);
    AvoidsAppend(ops + st, er, IndexPath);
    AvoidsAppend(ops + st + er, en, IndexPath);
    AvoidsAppend(ops + st + er + en, un, IndexPath);
    var rest := ops + st + er + en + un;
    var ws := Layout(index, ops, st, er, en, un);
    assert ws == [index] + rest;
    assert forall j :: 0 < j < |ws| ==> ws[j] == rest[j - 1];
    ApplyLast(files, unwritable, ws, 0);
  }

  lemma LayoutOperationWritten(files: map<string, string>, unwritable: set<string>, index: FileWrite, ops: seq<FileWrite>,
                               st: seq<FileWrite>, er: seq<FileWrite>, en: seq<FileWrite>, un: seq<FileWrite>,
                               names: seq<string>, i: nat)
    requires Apply(files, unwritable, Layout(index, ops, st, er, en, un)).ok
    requires Foldered(index, ops, st, er, en, un)
    requires NamedPages(ops, "operations", names) && LastOfName(names, i)
    ensures PagePath("operations", names[i]) in Apply(files, unwritable, Layout(index, ops, st, er, en, un)).files
    ensures Apply(files, unwritable, Layout(index, ops, st, er, en, un)).files[PagePath("operations", names[i])] == ops[i].content
  {
    var p := PagePath("operations", names[i]);
    PagePathInFolder("operations", names[i]);
    OtherFolderAvoids(st, "structures", p, "operations");
    OtherFolderAvoids(er, "errors", p, "operations");
    OtherFolderAvoids(en, "enums", p, "operations");
    OtherFolderAvoids(un, "unions", p, "operations");
    AvoidsAppend(st, er, p);
    AvoidsAppend(st + er, en, p);
    AvoidsAppend(st + er + en, un, p);
    var y := st + er + en + un;
    assert Layout(index, ops, st, er, en, un) == [index] + ops + y;
    CategoryPageWritten(files, unwritable, [index], ops, y, "operations", names, i);
  }

  lemma LayoutStructureWritten(files: map<string, string>, unwritable: set<string>, index: FileWrite, ops: seq<FileWrite>,
                               st: seq<FileWrite>, er: seq<FileWrite>, en: seq<FileWrite>, un: seq<FileWrite>,
                               names: seq<string>, i: nat)
    requires Apply(files, unwritable, Layout(index, ops, st, er, en, un)).ok
    requires Foldered(index, ops, st, er, en, un)
    requires NamedPages(st, "structures", names) && LastOfName(names, i)
    ensures PagePath("structures", names[i]) in Apply(files, unwritable, Layout(index, ops, st, er, en, un)).files
    ensures Apply(files, unwritable, Layout(index, ops, st, er, en, un)).files[PagePath("structures", names[i])] == st[i].content
  {
    var p := PagePath("structures", names[i]);
    PagePathInFolder("structures", names[i]);
    OtherFolderAvoids(er, "errors", p, "structures");
    OtherFolderAvoids(en, "enums", p, "structures");
    OtherFolderAvoids(un, "unions", p, "structures");
    AvoidsAppend(er, en, p);
    AvoidsAppend(er + en, un, p);
    var x := [index] + ops;
    var y := er + en + un;
    assert Layout(index, ops, st, er, en, un) == x + st + y;
    CategoryPageWritten(files, unwritable, x, st, y, "structures", names, i);
  }

  lemma LayoutErrorWritten(files: map<string, string>, unwritable: set<string>, index: FileWrite, ops: seq<FileWrite>,
                           st: seq<FileWrite>, er: seq<FileWrite>, en: seq<FileWrite>, un: seq<FileWrite>,
                           names: seq<string>, i: nat)
    requires Apply(files, unwritable, Layout(index, ops, st, er, en, un)).ok
    requires Foldered(index, ops, st, er, en, un)
    requires NamedPages(er, "errors", names) && LastOfName(names, i)
    ensures PagePath("errors", names[i]) in Apply(files, unwritable, Layout(index, ops, st, er, en, un)).files
    ensures Apply(files, unwritable, Layout(index, ops, st, er, en, un)).files[PagePath("errors", names[i])] == er[i].content
  {
    var p := PagePath("errors", names[i]);
    PagePathInFolder("errors", names[i]);
    OtherFolderAvoids(en, "enums", p, "errors");
    OtherFolderAvoids(un, "unions", p, "errors");
    AvoidsAppend(en, un, p);
    var x := [index] + ops + st;
    var y := en + un;
    assert Layout(index, ops, st, er, en, un) == x + er + y;
    CategoryPageWritten(files, unwritable, x, er, y, "errors", names, i);
  }

  lemma LayoutEnumWritten(files: map<string, string>, unwritable: set<string>, index: FileWrite, ops: seq<FileWrite>,
                          st: seq<FileWrite>, er: seq<FileWrite>, en: seq<FileWrite>, un: seq<FileWrite>,
                          names: seq<string>, i: nat)
    requires Apply(files, unwritable, Layout(index, ops, st, er, en, un)).ok
    requires Foldered(index, ops, st, er, en, un)
    requires NamedPages(en, "enums", names) && LastOfName(names, i)
    ensures PagePath("enums", names[i]) in Apply(files, unwritable, Layout(index, ops, st, er, en, un)).files
    ensures Apply(files, unwritable, Layout(index, ops, st, er, en, un)).files[PagePath("enums", names[i])] == en[i].content
  {
    var p := PagePath("enums", names[i]);
    PagePathInFolder("enums", names[i]);
    OtherFolderAvoids(un, "unions", p, "enums");
    var x := [index] + ops + st + er;
    CategoryPageWritten(files, unwritable, x, en, un, "enums", names, i);
  }

  lemma LayoutUnionWritten(files: map<string, string>, unwritable: set<string>, index: FileWrite, ops: seq<FileWrite>,
                           st: seq<FileWrite>, er: seq<FileWrite>, en: seq<FileWrite>, un: seq<FileWrite>,
                           names: seq<string>, i: nat)
    requires Apply(files, unwritable, Layout(index, ops, st, er, en, un)).ok
    requires NamedPages(un, "unions", names) && LastOfName(names, i)
    ensures PagePath("unions", names[i]) in Apply(files, unwritable, Layout(index, ops, st, er, en, un)).files
    ensures Apply(files, unwritable, Layout(index, ops, st, er, en, un)).files[PagePath("unions", names[i])] == un[i].content
  {
    var x := [index] + ops + st + er + en;
    assert Layout(index, ops, st, er, en, un) == x + un + [];
    CategoryPageWritten(files, unwritable, x, un, [], "unions", names, i);
  }

  /** The index holds the index page, whatever is written after it. */
  lemma IndexWritten(files: map<string, string>, unwritable: set<string>, serviceName: string, c: ClientInfo)
    requires Apply(files, unwritable, ClientWrites(serviceName, c)).ok
    ensures IndexPath in Apply(files, unwritable, ClientWrites(serviceName, c)).files
    ensures Apply(files, unwritable, ClientWrites(serviceName, c)).files[IndexPath] == Join(RenderLines(IndexPage(serviceName, c)), "\n")
  {
    ClientFoldered(serviceName, c);
    LayoutIndexWritten(files, unwritable, IndexWrite(serviceName, c), OperationWrites(serviceName, c.operations),
      StructureWrites(serviceName, c.models), ErrorWrites(serviceName, c.models),
      EnumWrites(serviceName, c.models), UnionWrites(serviceName, c.models.unions));
  }

  /** The page of each operation holds that operation's page, unless a later
      operation of the same name overwrote it. */
  lemma OperationPageWritten(files: map<string, string>, unwritable: set<string>, serviceName: string, c: ClientInfo, i: nat)
    requires Apply(files, unwritable, ClientWrites(serviceName, c)).ok
    requires LastOfName(Map(c.operations, OperationName), i)
    ensures var op := c.operations[i];
      && PagePath("operations", op.name) in Apply(files, unwritable, ClientWrites(serviceName, c)).files
      && Apply(files, unwritable, ClientWrites(serviceName, c)).files[PagePath("operations", op.name)]
         == PageText(Breadcrumb(serviceName, "Operations", op.name), OperationPage(op))
  {
    ClientFoldered(serviceName, c);
    OperationPages(serviceName, c.operations);
    LayoutOperationWritten(files, unwritable, IndexWrite(serviceName, c), OperationWrites(serviceName, c.operations),
      StructureWrites(serviceName, c.models), ErrorWrites(serviceName, c.models),
      EnumWrites(serviceName, c.models), UnionWrites(serviceName, c.models.unions),
      Map(c.operations, OperationName), i);
  }

  /** The page of each structure holds that structure's page, unless a later
      structure of the same name overwrote it. */
  lemma StructurePageWritten(files: map<string, string>, unwritable: set<string>, serviceName: string, c: ClientInfo, i: nat)
    requires Apply(files, unwritable, ClientWrites(serviceName, c)).ok
    requires LastOfName(Map(c.models.structures, NameOfType), i)
    ensures var item := c.models.structures[i];
      && PagePath("structures", item.name) in Apply(files, unwritable, ClientWrites(serviceName, c)).files
      && Apply(files, unwritable, ClientWrites(serviceName, c)).files[PagePath("structures", item.name)]
         == PageText(Breadcrumb(serviceName, "Structures", item.name), TypePage(item, "Structure Class", None))
  {
    ClientFoldered(serviceName, c);
    TypePages(serviceName, c.models.structures, "structures", "Structure Class", None);
    LayoutStructureWritten(files, unwritable, IndexWrite(serviceName, c), OperationWrites(serviceName, c.operations),
      StructureWrites(serviceName, c.models), ErrorWrites(serviceName, c.models),
      EnumWrites(serviceName, c.models), UnionWrites(serviceName, c.models.unions),
      Map(c.models.structures, NameOfType), i);
    StructuresTitle();
  }

  /** The page of each error holds that error's page, unless a later error
      of the same name overwrote it. */
  lemma ErrorPageWritten(files: map<string, string>, unwritable: set<string>, serviceName: string, c: ClientInfo, i: nat)
    requires Apply(files, unwritable, ClientWrites(serviceName, c)).ok
    requires LastOfName(Map(c.models.errors, NameOfType), i)
    ensures var item := c.models.errors[i];
      && PagePath("errors", item.name) in Apply(files, unwritable, ClientWrites(serviceName, c)).files
      && Apply(files, unwritable, ClientWrites(serviceName, c)).files[PagePath("errors", item.name)]
         == PageText(Breadcrumb(serviceName, "Errors", item.name), TypePage(item, "Error Class", None))
  {
    ClientFoldered(serviceName, c);
    TypePages(serviceName, c.models.errors, "errors", "Error Class", None);
    LayoutErrorWritten(files, unwritable, IndexWrite(serviceName, c), OperationWrites(serviceName, c.operations),
      StructureWrites(serviceName, c.models), ErrorWrites(serviceName, c.models),
      EnumWrites(serviceName, c.models), UnionWrites(serviceName, c.models.unions),
      Map(c.models.errors, NameOfType), i);
    ErrorsTitle();
  }

  /** The page of each enum holds that enum's page, its members shown, unless
      a later enum of the same name overwrote it. */
  lemma EnumPageWritten(files: map<string, string>, unwritable: set<string>, serviceName: string, c: ClientInfo, i: nat)
    requires Apply(files, unwritable, ClientWrites(serviceName, c)).ok
    requires LastOfName(Map(c.models.enums, NameOfType), i)
    ensures var item := c.models.enums[i];
      && PagePath("enums", item.name) in Apply(files, unwritable, ClientWrites(serviceName, c)).files
      && Apply(files, unwritable, ClientWrites(serviceName, c)).files[PagePath("enums", item.name)]
         == PageText(Breadcrumb(serviceName, "Enums", item.name), TypePage(item, "Enum Class", Some(true)))
  {
    ClientFoldered(serviceName, c);
    TypePages(serviceName, c.models.enums, "enums", "Enum Class", Some(true));
    LayoutEnumWritten(files, unwritable, IndexWrite(serviceName, c), OperationWrites(serviceName, c.operations),
      StructureWrites(serviceName, c.models), ErrorWrites(serviceName, c.models),
      EnumWrites(serviceName, c.models), UnionWrites(serviceName, c.models.unions),
      Map(c.models.enums, NameOfType), i);
    EnumsTitle();
  }

  /** The page of each union holds that union's page, unless a later union of
      the same name overwrote it. */
  lemma UnionPageWritten(files: map<string, string>, unwritable: set<string>, serviceName: string, c: ClientInfo, i: nat)
    requires Apply(files, unwritable, ClientWrites(serviceName, c)).ok
    requires LastOfName(Map(c.models.unions, UnionName), i)
    ensures var u := c.models.unions[i];
      && PagePath("unions", u.name) in Apply(files, unwritable, ClientWrites(serviceName, c)).files
      && Apply(files, unwritable, ClientWrites(serviceName, c)).files[PagePath("unions", u.name)]
         == PageText(Breadcrumb(serviceName, "Unions", u.name), UnionPage(u))
  {
    UnionPages(serviceName, c.models.unions);
    LayoutUnionWritten(files, unwritable, IndexWrite(serviceName, c), OperationWrites(serviceName, c.operations),
      StructureWrites(serviceName, c.models), ErrorWrites(serviceName, c.models),
      EnumWrites(serviceName, c.models), UnionWrites(serviceName, c.models.unions),
      Map(c.models.unions, UnionName), i);
  }

  // ---------------------------------------------------------------------
  // Building the pages' lines

  /** Appends a list item linking each name's page under `folder`, in the
      order given. */
  method AppendLinks(lines: seq<Line>, folder: string, names: seq<string>) returns (r: seq<Line>)
    ensures r == lines + ItemLinks(folder, names)
  {
    r := lines;
    for i := 0 to |names|
      invariant r == lines + ItemLinks(folder, names[..i])
    {
      assert ItemLinks(folder, names[..i + 1]) == ItemLinks(folder, names[..i]) + [ItemLink(folder, names[i])];
      r := r + [ItemLink(folder, names[i])];
    }
    assert names[..|names|] == names;
  }

  /** The operations section of the index, appended when there are
      operations: its heading, a link per operation in name order, a blank. */
  method AppendOperations(lines: seq<Line>, ops: seq<OperationInfo>) returns (r: seq<Line>)
    ensures r == lines + OperationsSection(LinkList("operations", Map(ops, OperationName)))
  {
    var names := Map(ops, OperationName);
    LinkListIsLinks("operations", names);
    r := lines;
    if ops != [] {
      r := r + [Heading(2, "Operations"), Blank];
      r := AppendLinks(r, "operations", SortBy(names, Ident));
      r := r + [Blank];
    }
  }

  /** A model section of the index, appended when it has items: a blank, its
      heading, a blank, then a link per item in name order. */
  method AppendSection(lines: seq<Line>, section: Section) returns (r: seq<Line>)
    ensures r == lines + SectionLines(section)
  {
    LinkListIsLinks(section.folder, section.names);
    r := lines;
    if section.names != [] {
      r := r + [Blank, Heading(2, section.title), Blank];
      r := AppendLinks(r, section.folder, SortBy(section.names, Ident));
    }
  }

  /** The model sections of the index, one after the other. */
  method AppendSections(lines: seq<Line>, sections: seq<Section>) returns (r: seq<Line>)
    ensures r == lines + SectionsFrom(sections, 0)
  {
    r := lines;
    for k := 0 to |sections|
      invariant r + SectionsFrom(sections, k) == lines + SectionsFrom(sections, 0)
    {
      ghost var before := r;
      r := AppendSection(r, sections[k]);
      Regroup(before, SectionLines(sections[k]), SectionsFrom(sections, k + 1));
    }
  }

  /** `_generate_index`'s lines, built as the generator builds them: the head,
      the operations section when there are operations, the configuration
      section, then each model section that has items. */
  method IndexLines(serviceName: string, c: ClientInfo) returns (lines: seq<Line>)
    ensures lines == IndexPage(serviceName, c)
  {
    lines := IndexHead(serviceName, c);
    lines := AppendOperations(lines, c.operations);
    lines := lines + ConfigurationSection(c);
    lines := AppendSections(lines, ModelSections(c.models));
  }

  /** `_generate_union_stubs`' lines for one union: the head, then, when the
      union has members, their section with a blank line and a directive per
      member. */
  method UnionLines(u: UnionInfo) returns (lines: seq<Line>)
    ensures lines == UnionPage(u)
  {
    lines := UnionHead(u);
    if u.members != [] {
      lines := lines + [Heading(2, "Union Member Types")];
      for i := 0 to |u.members|
        invariant lines == UnionHead(u) + [Heading(2, "Union Member Types")] + MemberBlocks(u.members[..i])
      {
        assert u.members[..i + 1][..i] == u.members[..i];
        lines := lines + [Blank];
        lines := lines + Directive(Defaults(u.members[i].modulePath));
      }
      assert u.members[..|u.members|] == u.members;
    }
  }

  // ---------------------------------------------------------------------
  // The generator

  /** A run that failed at `ws[..|a|]` is the whole run's outcome. */
  lemma ApplyFailedPrefix(files: map<string, string>, unwritable: set<string>, a: seq<FileWrite>, ws: seq<FileWrite>)
    requires |a| <= |ws| && ws[..|a|] == a
    requires !Apply(files, unwritable, a).ok
    ensures Apply(files, unwritable, ws) == Apply(files, unwritable, a)
  {
    assert ws == a + ws[|a|..];
    ApplyAppend(files, unwritable, a, ws[|a|..]);
  }

  /** Each stage of the layout is a prefix of the whole run. */
  lemma LayoutPrefixes(index: FileWrite, ops: seq<FileWrite>, st: seq<FileWrite>, er: seq<FileWrite>,
                       en: seq<FileWrite>, un: seq<FileWrite>)
    ensures var all := Layout(index, ops, st, er, en, un);
      && all == [index] + ops + st + er + en + un
      && all[..1] == [index]
      && all[..|[index] + ops|] == [index] + ops
      && all[..|[index] + ops + st|] == [index] + ops + st
      && all[..|[index] + ops + st + er|] == [index] + ops + st + er
      && all[..|[index] + ops + st + er + en|] == [index] + ops + st + er + en
  {
  }

  /** `DocStubGenerator`: the client directory's name (the package to
      analyse), the service name derived from it, and the output directory. */
  class DocStubGenerator {
    const packageName: string
    const serviceName: string
    const output: Directory

    constructor(clientDirName: string, output: Directory)
      ensures packageName == clientDirName && serviceName == ServiceName(clientDirName)
      ensures this.output == output
    {
      packageName := clientDirName;
      serviceName := Title(ReplaceAll(ReplaceAll(clientDirName, "aws_sdk_", ""), "_", " "));
      this.output := output;
    }

    /** `generate`: analyse the package (its exceptions propagate, before
        anything is written), then write the client's documentation; false
        when a write failed. */
    method Generate(package: Package) returns (r: Result<bool, AnalysisError>)
      modifies output
      ensures ClientInfoOf(package, packageName).Failure? ==>
        r == Failure(ClientInfoOf(package, packageName).error) && output.files == old(output.files)
      ensures ClientInfoOf(package, packageName).Success? ==>
        var outcome := Apply(old(output.files), output.unwritable, ClientWrites(serviceName, ClientInfoOf(package, packageName).value));
        r == Success(outcome.ok) && output.files == outcome.files
    {
      var info := AnalyzeClientPackage(package, packageName);
      if info.Failure? {
        return Failure(info.error);
      }
      var ok := GenerateClientDocs(info.value);
      return Success(ok);
    }

    /** `_generate_client_docs`: the index, the operations, the structures,
        errors and enums, then the unions; the first write that raises
        `OSError` ends it with false. */
    method GenerateClientDocs(c: ClientInfo) returns (ok: bool)
      modifies output
      ensures Apply(old(output.files), output.unwritable, ClientWrites(serviceName, c)) == Outcome(output.files, ok)
    {
      ghost var start := output.files;
      ghost var u := output.unwritable;
      ghost var index := IndexWrite(serviceName, c);
      ghost var ops := OperationWrites(serviceName, c.operations);
      ghost var st := StructureWrites(serviceName, c.models);
      ghost var er := ErrorWrites(serviceName, c.models);
      ghost var en := EnumWrites(serviceName, c.models);
      ghost var un := UnionWrites(serviceName, c.models.unions);
      ghost var all := ClientWrites(serviceName, c);
      LayoutPrefixes(index, ops, st, er, en, un);

      ok := GenerateIndex(c);
      if !ok {
        ApplyFailedPrefix(start, u, [index], all);
        return;
      }
      ok := GenerateOperationStubs(c.operations);
      ApplyAppend(start, u, [index], ops);
      if !ok {
        ApplyFailedPrefix(start, u, [index] + ops, all);
        return;
      }
      ok := GenerateTypeStubs(c.models.structures, "structures", "Structure Class", None);
      ApplyAppend(start, u, [index] + ops, st);
      if !ok {
        ApplyFailedPrefix(start, u, [index] + ops + st, all);
        return;
      }
      ok := GenerateTypeStubs(c.models.errors, "errors", "Error Class", None);
      ApplyAppend(start, u, [index] + ops + st, er);
      if !ok {
        ApplyFailedPrefix(start, u, [index] + ops + st + er, all);
        return;
      }
      ok := GenerateTypeStubs(c.models.enums, "enums", "Enum Class", Some(true));
      ApplyAppend(start, u, [index] + ops + st + er, en);
      if !ok {
        ApplyFailedPrefix(start, u, [index] + ops + st + er + en, all);
        return;
      }
      ok := GenerateUnionStubs(c.models.unions);
      ApplyAppend(start, u, [index] + ops + st + er + en, un);
    }

    /** `_generate_index`: `index.md` holds the index page's lines joined by
        newlines. */
    method GenerateIndex(c: ClientInfo) returns (ok: bool)
      modifies output
      ensures Apply(old(output.files), output.unwritable, [IndexWrite(serviceName, c)]) == Outcome(output.files, ok)
    {
      var lines := IndexLines(serviceName, c);
      ok := output.Write(IndexPath, Join(RenderLines(lines), "\n"));
      ApplySnoc(old(output.files), output.unwritable, [], IndexWrite(serviceName, c));
    }

    /** `_generate_operation_stubs`: one page per operation, in order. */
    method GenerateOperationStubs(ops: seq<OperationInfo>) returns (ok: bool)
      modifies output
      ensures Apply(old(output.files), output.unwritable, OperationWrites(serviceName, ops)) == Outcome(output.files, ok)
    {
      for i := 0 to |ops|
        invariant Apply(old(output.files), output.unwritable, OperationWrites(serviceName, ops[..i])) == Outcome(output.files, true)
      {
        var op := ops[i];
        var lines := OperationPage(op);
        var written := output.Write(PagePath("operations", op.name), PageText(Breadcrumb(serviceName, "Operations", op.name), lines));
        MapPrefixSnoc(ops, i, OperationWriteOf(serviceName));
        ApplySnoc(old(output.files), output.unwritable, OperationWrites(serviceName, ops[..i]), OperationWrite(serviceName, op));
        if !written {
          MapPrefix(ops, i + 1, OperationWriteOf(serviceName));
          ApplyFailedPrefix(old(output.files), output.unwritable, OperationWrites(serviceName, ops[..i + 1]), OperationWrites(serviceName, ops));
          return false;
        }
      }
      assert ops[..|ops|] == ops;
      return true;
    }

    /** `_generate_type_stubs`: one page per item under `category`, in order. */
    method GenerateTypeStubs(items: seq<TypeInfo>, category: string, sectionTitle: string, members: Option<bool>) returns (ok: bool)
      modifies output
      ensures Apply(old(output.files), output.unwritable, TypeWrites(serviceName, items, category, sectionTitle, members))
              == Outcome(output.files, ok)
    {
      for i := 0 to |items|
        invariant Apply(old(output.files), output.unwritable, TypeWrites(serviceName, items[..i], category, sectionTitle, members))
                  == Outcome(output.files, true)
      {
        var item := items[i];
        var lines := TypePage(item, sectionTitle, members);
        var written := output.Write(PagePath(category, item.name), PageText(Breadcrumb(serviceName, Title(category), item.name), lines));
        ghost var f := TypeWriteOf(serviceName, category, sectionTitle, members);
        MapPrefixSnoc(items, i, f);
        ApplySnoc(old(output.files), output.unwritable, Map(items[..i], f), f(item));
        if !written {
          MapPrefix(items, i + 1, f);
          ApplyFailedPrefix(old(output.files), output.unwritable, Map(items[..i + 1], f), Map(items, f));
          return false;
        }
      }
      assert items[..|items|] == items;
      return true;
    }

    /** `_generate_union_stubs`: one page per union, in order. */
    method GenerateUnionStubs(unions: seq<UnionInfo>) returns (ok: bool)
      modifies output
      ensures Apply(old(output.files), output.unwritable, UnionWrites(serviceName, unions)) == Outcome(output.files, ok)
    {
      for i := 0 to |unions|
        invariant Apply(old(output.files), output.unwritable, UnionWrites(serviceName, unions[..i])) == Outcome(output.files, true)
      {
        var u := unions[i];
        var lines := UnionLines(u);
        var written := output.Write(PagePath("unions", u.name), PageText(Breadcrumb(serviceName, "Unions", u.name), lines));
        MapPrefixSnoc(unions, i, UnionWriteOf(serviceName));
        ApplySnoc(old(output.files), output.unwritable, UnionWrites(serviceName, unions[..i]), UnionWrite(serviceName, u));
        if !written {
          MapPrefix(unions, i + 1, UnionWriteOf(serviceName));
          ApplyFailedPrefix(old(output.files), output.unwritable, UnionWrites(serviceName, unions[..i + 1]), UnionWrites(serviceName, unions));
          return false;
        }
      }
      assert unions[..|unions|] == unions;
      return true;
    }
  }
}
