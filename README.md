# Documentation and release scripts of the AWS SDK for Python, in Dafny

This project models four scripts of the AWS SDK for Python repository and proves
properties of the model.

- **The doc-stub generator** (`DocStubGenerator` in
  `clients/aws-sdk-transcribe-streaming/scripts/docs/generate_doc_stubs.py`)
  reads griffe's view of a client package and builds a `ClientInfo`. That
  record holds:
  - the client class, its config and its plugin;
  - every public operation, with its input, its output and, for event
    streams, the event input and output types;
  - the models module's members sorted into structures, unions, enums and
    errors, with the structures an operation or a union already shows removed.

  It then writes the MkDocs pages: `index.md`, one page per operation, and one
  per structure, error, enum and union.
- **`scripts/docs/generate_all_doc_stubs.py`** finds the clients that have a
  doc-stub script and runs each client's generator. It folds the results into
  one success flag and writes `docs/clients/index.md`. That page has an "All"
  tab and one tab per initial letter.
- **`scripts/docs/generate_nav.py`** writes the literate-nav file
  `docs/SUMMARY.md`.
- **`scripts/changelog/new-release.py`** consolidates the changelog entries in
  `.changes/next-release` into a version file `<version>.json`. It validates
  every entry and sorts the entries by change type. It refuses an existing
  version file, then removes the consumed entries. An entry that cannot be
  removed ends the run with the version file already written.

Modules:

- `Griffe`: annotation expressions (`Name`, `Subscript`, `Tuple`, `BinOp`,
  plain `Str`), module members and packages. Also `str()`, `canonical_path`,
  `canonical_name` and `members.get`.
- `Analysis`: `_analyze_client_package` and everything it calls.
- `Pages`: the lines of every page, `_mkdocs_directive` and `_breadcrumb`. A
  page is a list of typed lines that `Render` turns into the written text.
  Three readers pick out what a rendered page shows: its headings, its links
  and the objects it documents. The page lemmas are stated through them.
- `Generator`: the class `DocStubGenerator` and its page-writing methods, over
  an output `Files.Directory`.
- `Files`: a directory as a map from path to text, with a set of paths whose
  write raises `OSError`.
- `Clients`: `generate_all_doc_stubs.py`.
- `Nav`: `generate_nav.py`.
- `Changelog`: `new-release.py`. The class `ChangesDir` is the package's
  `.changes` directory.
- `Ranks`: the stable sort by a small integer key that `list.sort` performs.
- `Seqs`, `Text`, `Wrappers`: sequence, string and `Option`/`Result` helpers.
  `Text` holds Python's `strip`, `replace` and `title` for ASCII.

Each loop of the source is a method with loop invariants, proved equal to a
function of its inputs. The properties are proved about those functions.
Methods that write files update a `Directory` or a `ChangesDir` and state the
new state in full.

The system's specification and its code disagree in two places. The model
follows the code.

- **Stream type arguments.** The specification says the number of stream type
  arguments is checked: one for an input or output stream, two for a duplex
  stream. The code reads arguments 0, 1 and the last one and never checks how
  many there are.
  - Duplex streams in practice carry three arguments.
  - Too few arguments raise `IndexError`; the model calls this
    `StreamArgumentMissing`.
  - `Analysis.StreamOperation` and `Analysis.AnalyzeReturn` state what each
    index yields.
- **Union classification.** The specification calls it a partition into
  well-formed categories. In the code, `_is_union` accepts a binary operator
  expression whatever its operator. The text of `Union[A, B]` is split only
  on `|`. Both forms are classified as unions whose single member name does
  not resolve. `Analysis.AnyOperatorIsUnion` and
  `Analysis.TupleUnionUnresolved` show this.

## Model

Paths below are relative to the repository root. `generate_doc_stubs.py` stands
for `clients/aws-sdk-transcribe-streaming/scripts/docs/generate_doc_stubs.py`
in the prose; the table spells it out.

| member | source | states |
|---|---|---|
| Analysis.StreamTypeNamed | clients/aws-sdk-transcribe-streaming/scripts/docs/generate_doc_stubs.py:229-232 | The stream type found for a name is the one whose value is that name; none is found exactly when no stream type has that value |
| Analysis.SliceElements | clients/aws-sdk-transcribe-streaming/scripts/docs/generate_doc_stubs.py:267-272 | A tuple slice yields exactly its `Expr` elements (non-`Expr` elements dropped); any other slice yields itself alone |
| Analysis.GetSubscriptElements | clients/aws-sdk-transcribe-streaming/scripts/docs/generate_doc_stubs.py:263-272 | Succeeds exactly for a subscript whose slice is not a plain string, with the slice's elements; a non-subscript and a string slice raise their TypeErrors |
| Analysis.InputParameter | clients/aws-sdk-transcribe-streaming/scripts/docs/generate_doc_stubs.py:218 | The parameter found is named `input`; none is found exactly when no parameter has that name (the KeyError case) |
| Analysis.AnalyzeReturn | clients/aws-sdk-transcribe-streaming/scripts/docs/generate_doc_stubs.py:227-255 | Succeeds exactly when a stream annotation carries the arguments read; non-stream return: no stream kind, no event types, output is the annotation's own name and path; stream return: the output is the last argument; errors named per case |
| Analysis.StreamOperation | clients/aws-sdk-transcribe-streaming/scripts/docs/generate_doc_stubs.py:231-243 | Event input type is argument 0, event output type is argument 0 (output stream) or 1 (duplex), output is the last argument, and the event fields agree with the stream kind |
| Analysis.AnalyzeOperation | clients/aws-sdk-transcribe-streaming/scripts/docs/generate_doc_stubs.py:212-261 | Succeeds exactly when the input parameter exists and is typed by an `Expr`, the return is an `Expr`, and the stream arguments are there; each failure is the KeyError or TypeError the source raises first |
| Analysis.OperationsOf | clients/aws-sdk-transcribe-streaming/scripts/docs/generate_doc_stubs.py:203-210 | Succeeds exactly when every public non-`__init__` function analyses; the result has one entry per such function in declaration order; a failure is the first failing function's error |
| Analysis.OperationsOfPrefixFailure | clients/aws-sdk-transcribe-streaming/scripts/docs/generate_doc_stubs.py:206-209 | Once a prefix of the functions fails, the whole extraction fails the same way |
| Analysis.ExtractOperations | clients/aws-sdk-transcribe-streaming/scripts/docs/generate_doc_stubs.py:203-210 | The appending loop returns `OperationsOf` of the client's functions |
| Analysis.UnwrapUnion | clients/aws-sdk-transcribe-streaming/scripts/docs/generate_doc_stubs.py:335-336 | `Union[` and `]` are removed exactly when both are present; otherwise the text is unchanged |
| Analysis.UnionMemberNames | clients/aws-sdk-transcribe-streaming/scripts/docs/generate_doc_stubs.py:332-338 | A union value always yields at least one member name |
| Analysis.MemberNames | clients/aws-sdk-transcribe-streaming/scripts/docs/generate_doc_stubs.py:338 | Splitting on `\|` and stripping yields at least one piece |
| Analysis.ResolveNames | clients/aws-sdk-transcribe-streaming/scripts/docs/generate_doc_stubs.py:340-345 | Succeeds exactly when every name is a member of the models module, with one entry per name, in order and with that name; otherwise fails on the first unknown name |
| Analysis.ResolveNamesPrefixFailure | clients/aws-sdk-transcribe-streaming/scripts/docs/generate_doc_stubs.py:340-342 | An unknown name stops the lookup: the whole result is the prefix's failure |
| Analysis.ResolveMembers | clients/aws-sdk-transcribe-streaming/scripts/docs/generate_doc_stubs.py:340-345 | The lookup loop returns `ResolveNames` of the names |
| Analysis.ExtractUnionMembers | clients/aws-sdk-transcribe-streaming/scripts/docs/generate_doc_stubs.py:327-345 | `_extract_union_members` resolves exactly the names read off the union's text |
| Analysis.Classify | clients/aws-sdk-transcribe-streaming/scripts/docs/generate_doc_stubs.py:278-296 | One member goes to the unions, enums, errors or structures list by the source's precedence, or nowhere; it fails exactly when it is a union whose members do not resolve |
| Analysis.RawEnums | clients/aws-sdk-transcribe-streaming/scripts/docs/generate_doc_stubs.py:291-292 | The enums list is exactly the enum members in module order |
| Analysis.RawErrors | clients/aws-sdk-transcribe-streaming/scripts/docs/generate_doc_stubs.py:293-294 | The errors list is exactly the error members in module order |
| Analysis.RawStructures | clients/aws-sdk-transcribe-streaming/scripts/docs/generate_doc_stubs.py:295-296 | The structures list is exactly the remaining classes in module order |
| Analysis.RawUnions | clients/aws-sdk-transcribe-streaming/scripts/docs/generate_doc_stubs.py:283-290 | The unions list has one resolved entry per union member, in module order |
| Analysis.RawModelsSuccess | clients/aws-sdk-transcribe-streaming/scripts/docs/generate_doc_stubs.py:278-296 | Classification succeeds exactly when every union's member names resolve |
| Analysis.RawModelsFirstFailure | clients/aws-sdk-transcribe-streaming/scripts/docs/generate_doc_stubs.py:283-290 | A failed classification fails with the first unresolvable union's error |
| Analysis.RawModelsFailure | clients/aws-sdk-transcribe-streaming/scripts/docs/generate_doc_stubs.py:278-296 | Both of the above together: success iff all unions resolve, failure at the first that does not |
| Analysis.RawModelsPrefixFailure | clients/aws-sdk-transcribe-streaming/scripts/docs/generate_doc_stubs.py:278-290 | A failure on a prefix of the members is the failure of the whole loop |
| Analysis.DuplicatesOf | clients/aws-sdk-transcribe-streaming/scripts/docs/generate_doc_stubs.py:298-303 | The duplicates are exactly the structures whose name an operation input, operation output or union member carries |
| Analysis.NotConsumed | clients/aws-sdk-transcribe-streaming/scripts/docs/generate_doc_stubs.py:363-369 | Reference filter: exactly the structures whose name no operation input or output and no union member carries |
| Analysis.DeduplicateByName | clients/aws-sdk-transcribe-streaming/scripts/docs/generate_doc_stubs.py:298-305 | Removing the collected duplicates by value gives the reference filter |
| Analysis.SurvivorsAgree | clients/aws-sdk-transcribe-streaming/scripts/docs/generate_doc_stubs.py:305 | The comprehension keeps exactly the structures not in `duplicates`, in order |
| Analysis.ClassifyMembers | clients/aws-sdk-transcribe-streaming/scripts/docs/generate_doc_stubs.py:276-296 | The classification loop returns the classification function of the module's members |
| Analysis.FindDuplicates | clients/aws-sdk-transcribe-streaming/scripts/docs/generate_doc_stubs.py:298-303 | The duplicate-collecting loop returns `DuplicatesOf` |
| Analysis.ExtractModels | clients/aws-sdk-transcribe-streaming/scripts/docs/generate_doc_stubs.py:274-307 | `_extract_models` returns the classified, deduplicated models or the classification failure |
| Analysis.FirstClassWithSuffix | clients/aws-sdk-transcribe-streaming/scripts/docs/generate_doc_stubs.py:196-201 | The class found is the first class whose name ends with the suffix; none is found exactly when no class does |
| Analysis.FindClassWithSuffix | clients/aws-sdk-transcribe-streaming/scripts/docs/generate_doc_stubs.py:196-201 | The search loop returns that first class |
| Analysis.Absent | clients/aws-sdk-transcribe-streaming/scripts/docs/generate_doc_stubs.py:155-156 | The missing list holds exactly the required modules the package does not have |
| Analysis.DiscoveryChecks | clients/aws-sdk-transcribe-streaming/scripts/docs/generate_doc_stubs.py:155-194 | Missing submodules (all named), then no `...Client` class, then a missing `Config` or `Plugin` are the ValueErrors, in that order; a success has all three submodules, a `...Client` class, `Config` and `Plugin` |
| Analysis.AnalyzeClientPackage | clients/aws-sdk-transcribe-streaming/scripts/docs/generate_doc_stubs.py:149-194 | `_analyze_client_package` on a loaded package returns the analysed client or the first error |
| Analysis.OperationsAgree | clients/aws-sdk-transcribe-streaming/scripts/docs/generate_doc_stubs.py:235-239 | Every analysed operation's event fields agree with its stream kind |
| Analysis.DeduplicateKeepsOthers | clients/aws-sdk-transcribe-streaming/scripts/docs/generate_doc_stubs.py:298-307 | Deduplication changes only the structures: the unions, enums and errors returned are those classified, the enums and errors being the enum and error members in module order |
| Analysis.ModelsInvariants | clients/aws-sdk-transcribe-streaming/scripts/docs/generate_doc_stubs.py:298-307 | After `_extract_models` no structure is an operation input or output or a union member, and every union has members, each a member of the models module |
| Analysis.AnalysisInvariants | clients/aws-sdk-transcribe-streaming/scripts/docs/generate_doc_stubs.py:149-194 | A successful analysis yields a well-formed client: both invariants above hold of it |
| Analysis.FilteredNamesDisjoint | clients/aws-sdk-transcribe-streaming/scripts/docs/generate_doc_stubs.py:283-296 | Two exclusive categories of a module with unique names share no name |
| Analysis.FilteredNames | clients/aws-sdk-transcribe-streaming/scripts/docs/generate_doc_stubs.py:283-296 | The same, stated on the lists of names |
| Analysis.CategoriesDisjoint | clients/aws-sdk-transcribe-streaming/scripts/docs/generate_doc_stubs.py:283-296 | With unique member names, no name is listed in two of the four categories |
| Analysis.RenderAlternation | clients/aws-sdk-transcribe-streaming/scripts/docs/generate_doc_stubs.py:332 | `str()` of a PEP 604 alternation is its names joined by ` \| ` |
| Analysis.MemberNamesAfter | clients/aws-sdk-transcribe-streaming/scripts/docs/generate_doc_stubs.py:338 | The piece before the first `\|` is the first name, stripped |
| Analysis.PaddedName | clients/aws-sdk-transcribe-streaming/scripts/docs/generate_doc_stubs.py:338 | A single name with leading spaces reads as that name |
| Analysis.PaddedSplit | clients/aws-sdk-transcribe-streaming/scripts/docs/generate_doc_stubs.py:338 | Names joined by ` \| ` split and strip back into those names |
| Analysis.UnwrapWrapped | clients/aws-sdk-transcribe-streaming/scripts/docs/generate_doc_stubs.py:335-336 | `Union[t]` unwraps to `t` |
| Analysis.UnwrapPlain | clients/aws-sdk-transcribe-streaming/scripts/docs/generate_doc_stubs.py:335-336 | Text without `[` is not unwrapped |
| Analysis.PlainAlternationText | clients/aws-sdk-transcribe-streaming/scripts/docs/generate_doc_stubs.py:332-338 | The ` \| `-joined text of plain names has no wrapper and parses back to those names |
| Analysis.RenderWrappedAlternation | clients/aws-sdk-transcribe-streaming/scripts/docs/generate_doc_stubs.py:332-336 | `Union[A \| B ...]` unwraps to the joined names |
| Analysis.UnionMemberNamesRoundTrip | clients/aws-sdk-transcribe-streaming/scripts/docs/generate_doc_stubs.py:316-338 | Member parsing reads back the names of an alternation of plain names, written either as `A \| B` or as `Union[A \| B]` |
| Analysis.CommaPairOneName | clients/aws-sdk-transcribe-streaming/scripts/docs/generate_doc_stubs.py:338 | `A, B` has no `\|` and is read as one name |
| Analysis.TupleUnionUnresolved | clients/aws-sdk-transcribe-streaming/scripts/docs/generate_doc_stubs.py:316-342 | `Union[A, B]` is a union whose single member name `A, B` does not resolve, so `_extract_union_members` raises ValueError |
| Analysis.RenderUnionPair | clients/aws-sdk-transcribe-streaming/scripts/docs/generate_doc_stubs.py:332-336 | `str()` of `Union[A, B]`, unwrapped, is `A, B` |
| Analysis.AnyOperatorIsUnion | clients/aws-sdk-transcribe-streaming/scripts/docs/generate_doc_stubs.py:322-342 | An attribute `A & B` is classified as a union and read as the one member name `A & B`, which does not resolve |
| Griffe.LastSegment | clients/aws-sdk-transcribe-streaming/scripts/docs/generate_doc_stubs.py:223-228 | `canonical_name` is the dot-free tail of the canonical path, following its last dot or the whole path |
| Griffe.Get | clients/aws-sdk-transcribe-streaming/scripts/docs/generate_doc_stubs.py:169-170 | `members.get(name)` finds a member of that name, and finds none exactly when no member has it |
| Pages.Directive | clients/aws-sdk-transcribe-streaming/scripts/docs/generate_doc_stubs.py:561-594 | A directive starts with `::: <path>` followed only by option lines; it has three lines plus one for `members` when given, one for merging `__init__` and two for ignoring the init summary |
| Pages.OptionLinesRoundTrip | clients/aws-sdk-transcribe-streaming/scripts/docs/generate_doc_stubs.py:586-592 | The optional option lines read back as the options they were written from |
| Pages.DirectiveRoundTrip | clients/aws-sdk-transcribe-streaming/scripts/docs/generate_doc_stubs.py:561-594 | Every written directive reads back as its path, heading level and options |
| Pages.BreadcrumbLine | clients/aws-sdk-transcribe-streaming/scripts/docs/generate_doc_stubs.py:596-601 | The breadcrumb opens with the link to the client index and ends with the page's own name |
| Pages.BreadcrumbLineOneLine | clients/aws-sdk-transcribe-streaming/scripts/docs/generate_doc_stubs.py:596-601 | A breadcrumb of single-line parts is one line |
| Pages.PageTextLines | clients/aws-sdk-transcribe-streaming/scripts/docs/generate_doc_stubs.py:509-511 | A written page splits back into the breadcrumb line followed by exactly the page's lines |
| Pages.ReadRendered | clients/aws-sdk-transcribe-streaming/scripts/docs/generate_doc_stubs.py:447-448 | Reading the written text picks out the text of exactly the lines the reader picks out of the page |
| Pages.ItemLinks | clients/aws-sdk-transcribe-streaming/scripts/docs/generate_doc_stubs.py:442-443 | One list item per name, linking that name's page, in the order given |
| Pages.LinkListIsLinks | clients/aws-sdk-transcribe-streaming/scripts/docs/generate_doc_stubs.py:437-443 | A section's links are list items, none exactly when there are no names |
| Pages.ModelSectionRead | clients/aws-sdk-transcribe-streaming/scripts/docs/generate_doc_stubs.py:437-443 | A model section shows its heading only when non-empty and links each item in name order |
| Pages.ReadSectionsFour | clients/aws-sdk-transcribe-streaming/scripts/docs/generate_doc_stubs.py:431-443 | Four model sections in a row show their headings and links in order, and no directive |
| Pages.IndexHeadRead | clients/aws-sdk-transcribe-streaming/scripts/docs/generate_doc_stubs.py:391-403 | The index opens with the service name and "Client" and documents the client class |
| Pages.OperationsSectionRead | clients/aws-sdk-transcribe-streaming/scripts/docs/generate_doc_stubs.py:405-411 | The operations section appears only when there are operations, with one link per operation |
| Pages.ConfigurationSectionRead | clients/aws-sdk-transcribe-streaming/scripts/docs/generate_doc_stubs.py:413-426 | The configuration section documents the config class and then the plugin |
| Pages.IndexHeadings | clients/aws-sdk-transcribe-streaming/scripts/docs/generate_doc_stubs.py:389-443 | The index headings: title, Client, Operations when there are any, Configuration, then the non-empty model sections in the fixed order Structures, Errors, Unions, Enums |
| Pages.IndexLinks | clients/aws-sdk-transcribe-streaming/scripts/docs/generate_doc_stubs.py:405-443 | The index links every operation and every model to its page, each section sorted by name |
| Pages.IndexDirectives | clients/aws-sdk-transcribe-streaming/scripts/docs/generate_doc_stubs.py:389-426 | The index documents the client class, the config class and the plugin, in that order |
| Pages.OperationHeadRead | clients/aws-sdk-transcribe-streaming/scripts/docs/generate_doc_stubs.py:455-468 | An operation page opens with its name, Operation, Input and Output headings and documents the operation and its input |
| Pages.EventBlockHeadings | clients/aws-sdk-transcribe-streaming/scripts/docs/generate_doc_stubs.py:480-497 | An event type block has its heading exactly when the event type is set |
| Pages.EventBlockLinks | clients/aws-sdk-transcribe-streaming/scripts/docs/generate_doc_stubs.py:480-497 | An event type block links the event type's union page exactly when it is set |
| Pages.OutputSectionHeadings | clients/aws-sdk-transcribe-streaming/scripts/docs/generate_doc_stubs.py:470-507 | The output section has stream headings only for a streaming operation |
| Pages.OutputSectionLinks | clients/aws-sdk-transcribe-streaming/scripts/docs/generate_doc_stubs.py:470-507 | The output section links only the event types that are set, only for a streaming operation |
| Pages.OutputSectionDirectives | clients/aws-sdk-transcribe-streaming/scripts/docs/generate_doc_stubs.py:470-507 | The output section documents the output type, and nothing else |
| Pages.OperationHeadings | clients/aws-sdk-transcribe-streaming/scripts/docs/generate_doc_stubs.py:452-507 | An operation page's headings, with the event stream headings only for a streaming operation and an event type heading only for each type that is set |
| Pages.OperationLinks | clients/aws-sdk-transcribe-streaming/scripts/docs/generate_doc_stubs.py:480-497 | An operation page links exactly the event types that are set |
| Pages.OperationDirectives | clients/aws-sdk-transcribe-streaming/scripts/docs/generate_doc_stubs.py:452-507 | An operation page documents the operation, its input and its output |
| Pages.OperationOutputDirective | clients/aws-sdk-transcribe-streaming/scripts/docs/generate_doc_stubs.py:499-507 | The page ends with the output directive at heading level 4 for a stream and 3 otherwise |
| Pages.TypePageContents | clients/aws-sdk-transcribe-streaming/scripts/docs/generate_doc_stubs.py:523-529 | A type page has its name and section headings, then the type's directive with the requested `members` option |
| Pages.UnionHeadRead | clients/aws-sdk-transcribe-streaming/scripts/docs/generate_doc_stubs.py:539-546 | A union page opens with its name and "Union Type" and documents the union |
| Pages.MemberSectionRead | clients/aws-sdk-transcribe-streaming/scripts/docs/generate_doc_stubs.py:548-553 | The member section has its heading only when there are members and documents each member in order |
| Pages.UnionPageContents | clients/aws-sdk-transcribe-streaming/scripts/docs/generate_doc_stubs.py:537-557 | A union page has "Union Member Types" exactly when the union has members, and documents the union then each member in order |
| Generator.ServiceNameShape | clients/aws-sdk-transcribe-streaming/scripts/docs/generate_doc_stubs.py:130 | The service name has no underscore, is its own title case and is one line when the directory name is |
| Generator.ApplyAppend | clients/aws-sdk-transcribe-streaming/scripts/docs/generate_doc_stubs.py:375-386 | A later batch of writes starts from what the earlier left and is not attempted after an OSError |
| Generator.ApplyOk | clients/aws-sdk-transcribe-streaming/scripts/docs/generate_doc_stubs.py:375-387 | Writing succeeds exactly when no path is unwritable |
| Generator.ApplyStopsAt | clients/aws-sdk-transcribe-streaming/scripts/docs/generate_doc_stubs.py:375-386 | The first unwritable path stops the writes: earlier writes stay, later ones never happen |
| Generator.ApplyKeeps | clients/aws-sdk-transcribe-streaming/scripts/docs/generate_doc_stubs.py:375-386 | A path no write names keeps its file, or its absence |
| Generator.ApplyLast | clients/aws-sdk-transcribe-streaming/scripts/docs/generate_doc_stubs.py:375-386 | After success each path holds the text of its last write |
| Generator.ApplyDomain | clients/aws-sdk-transcribe-streaming/scripts/docs/generate_doc_stubs.py:375-386 | A successful run adds exactly its own paths |
| Generator.PagePathInFolder | clients/aws-sdk-transcribe-streaming/scripts/docs/generate_doc_stubs.py:531 | A page path lies in its category folder |
| Generator.FolderUnique | clients/aws-sdk-transcribe-streaming/scripts/docs/generate_doc_stubs.py:509-555 | A path lies under one top-level folder only |
| Generator.PagePathInjective | clients/aws-sdk-transcribe-streaming/scripts/docs/generate_doc_stubs.py:531 | Pages of one folder with different names have different paths |
| Generator.OtherFolderAvoids | clients/aws-sdk-transcribe-streaming/scripts/docs/generate_doc_stubs.py:509-555 | Writes under one folder never touch a path under another |
| Generator.FolderAvoidsIndex | clients/aws-sdk-transcribe-streaming/scripts/docs/generate_doc_stubs.py:445-555 | Writes under a folder never touch `index.md` |
| Generator.CategoryPageWritten | clients/aws-sdk-transcribe-streaming/scripts/docs/generate_doc_stubs.py:523-533 | After success a category page holds the content of the last item of its name |
| Generator.OperationsInFolder | clients/aws-sdk-transcribe-streaming/scripts/docs/generate_doc_stubs.py:509 | Operation pages go under `operations/` |
| Generator.TypesInFolder | clients/aws-sdk-transcribe-streaming/scripts/docs/generate_doc_stubs.py:531 | Type pages go under their category folder |
| Generator.UnionsInFolder | clients/aws-sdk-transcribe-streaming/scripts/docs/generate_doc_stubs.py:555 | Union pages go under `unions/` |
| Generator.SectionTitlesMatchBreadcrumbs | clients/aws-sdk-transcribe-streaming/scripts/docs/generate_doc_stubs.py:430-443 | Every model section of the index is titled with `title()` of its folder, the title the breadcrumb of each page in that folder shows |
| Generator.ClientFoldered | clients/aws-sdk-transcribe-streaming/scripts/docs/generate_doc_stubs.py:376-383 | The index and each category's pages go to their own folders |
| Generator.LayoutIndexWritten | clients/aws-sdk-transcribe-streaming/scripts/docs/generate_doc_stubs.py:376-383 | After a successful run `index.md` holds the index content |
| Generator.LayoutOperationWritten | clients/aws-sdk-transcribe-streaming/scripts/docs/generate_doc_stubs.py:376-383 | After a successful run an operation page holds the content of the last operation of its name |
| Generator.LayoutStructureWritten | clients/aws-sdk-transcribe-streaming/scripts/docs/generate_doc_stubs.py:376-383 | Likewise for structure pages |
| Generator.LayoutErrorWritten | clients/aws-sdk-transcribe-streaming/scripts/docs/generate_doc_stubs.py:376-383 | Likewise for error pages |
| Generator.LayoutEnumWritten | clients/aws-sdk-transcribe-streaming/scripts/docs/generate_doc_stubs.py:376-383 | Likewise for enum pages |
| Generator.LayoutUnionWritten | clients/aws-sdk-transcribe-streaming/scripts/docs/generate_doc_stubs.py:376-383 | Likewise for union pages |
| Generator.IndexWritten | clients/aws-sdk-transcribe-streaming/scripts/docs/generate_doc_stubs.py:445-448 | After a successful run `index.md` holds the index page's lines joined by newlines |
| Generator.OperationPageWritten | clients/aws-sdk-transcribe-streaming/scripts/docs/generate_doc_stubs.py:452-511 | After a successful run each operation's page holds its breadcrumb and page, unless a later operation of the same name overwrote it |
| Generator.StructurePageWritten | clients/aws-sdk-transcribe-streaming/scripts/docs/generate_doc_stubs.py:378-380 | Each structure's page holds its "Structure Class" page |
| Generator.ErrorPageWritten | clients/aws-sdk-transcribe-streaming/scripts/docs/generate_doc_stubs.py:381 | Each error's page holds its "Error Class" page |
| Generator.EnumPageWritten | clients/aws-sdk-transcribe-streaming/scripts/docs/generate_doc_stubs.py:382 | Each enum's page holds its "Enum Class" page with its members shown |
| Generator.UnionPageWritten | clients/aws-sdk-transcribe-streaming/scripts/docs/generate_doc_stubs.py:537-557 | Each union's page holds its union page |
| Generator.AppendLinks | clients/aws-sdk-transcribe-streaming/scripts/docs/generate_doc_stubs.py:442-443 | The link loop appends one link per name in order |
| Generator.AppendOperations | clients/aws-sdk-transcribe-streaming/scripts/docs/generate_doc_stubs.py:405-411 | Appends the operations section with links in name order |
| Generator.AppendSection | clients/aws-sdk-transcribe-streaming/scripts/docs/generate_doc_stubs.py:437-443 | Appends a model section when it has items |
| Generator.AppendSections | clients/aws-sdk-transcribe-streaming/scripts/docs/generate_doc_stubs.py:437-443 | Appends the model sections in order |
| Generator.IndexLines | clients/aws-sdk-transcribe-streaming/scripts/docs/generate_doc_stubs.py:389-443 | The index-building steps produce exactly the index page |
| Generator.UnionLines | clients/aws-sdk-transcribe-streaming/scripts/docs/generate_doc_stubs.py:539-553 | The union-page loop produces exactly the union page |
| Generator.DocStubGenerator.constructor | clients/aws-sdk-transcribe-streaming/scripts/docs/generate_doc_stubs.py:118-130 | Keeps the output directory and derives the service name from the package directory name |
| Generator.DocStubGenerator.Generate | clients/aws-sdk-transcribe-streaming/scripts/docs/generate_doc_stubs.py:132-147 | An analysis failure writes nothing and is returned; otherwise the result and the output directory are those of all the client's page writes |
| Generator.DocStubGenerator.GenerateClientDocs | clients/aws-sdk-transcribe-streaming/scripts/docs/generate_doc_stubs.py:371-387 | Writes the index, operations, structures, errors, enums and unions in that order, stopping with false at the first OSError |
| Generator.DocStubGenerator.GenerateIndex | clients/aws-sdk-transcribe-streaming/scripts/docs/generate_doc_stubs.py:389-450 | Writes `index.md` with the index page, or fails leaving the directory unchanged |
| Generator.DocStubGenerator.GenerateOperationStubs | clients/aws-sdk-transcribe-streaming/scripts/docs/generate_doc_stubs.py:452-513 | Writes one page per operation in order |
| Generator.DocStubGenerator.GenerateTypeStubs | clients/aws-sdk-transcribe-streaming/scripts/docs/generate_doc_stubs.py:515-535 | Writes one page per item under the category in order |
| Generator.DocStubGenerator.GenerateUnionStubs | clients/aws-sdk-transcribe-streaming/scripts/docs/generate_doc_stubs.py:537-559 | Writes one page per union in order |
| Files.Directory.Write | scripts/docs/generate_nav.py:65-70 | `write_text` sets the path's content, or raises OSError on an unwritable path and changes nothing |
| Files.LinesTextSplit | scripts/docs/generate_nav.py:67 | `"\n".join(lines) + "\n"` splits back into the lines when none holds a newline |
| Clients.PathNameDropsPrefix | scripts/docs/generate_all_doc_stubs.py:57-59 | A package named `aws-sdk-<rest>` gets the path name `<rest>` |
| Clients.DisplayNameShape | scripts/docs/generate_all_doc_stubs.py:60 | The service name has no hyphen, is its own title case and is one line when the package name is |
| Clients.DiscoveredMembers | scripts/docs/generate_all_doc_stubs.py:52-61 | A client is found for exactly the entries holding the doc-stub script |
| Clients.DiscoveredSorted | scripts/docs/generate_all_doc_stubs.py:52 | The clients come in order of their package names |
| Clients.DiscoverClients | scripts/docs/generate_all_doc_stubs.py:38-63 | A missing clients directory raises FileNotFoundError; otherwise the loop returns the discovered clients |
| Clients.StubOutputsDistinct | scripts/docs/generate_all_doc_stubs.py:84-93 | Clients with different path names get different output directories |
| Clients.StubSourceName | scripts/docs/generate_all_doc_stubs.py:132 | The source directory is the package name with each hyphen replaced by an underscore |
| Clients.Completed | scripts/docs/generate_all_doc_stubs.py:96-97 | One result per completed run |
| Clients.GenerateAllDocStubs | scripts/docs/generate_all_doc_stubs.py:66-108 | `failed` lists the service names of the failed runs in completion order; the result is true exactly when it is empty |
| Clients.AllDocStubsOk | scripts/docs/generate_all_doc_stubs.py:96-108 | No run fails exactly when every client's generator exits with 0 |
| Clients.FailedNames | scripts/docs/generate_all_doc_stubs.py:95-105 | A name is in `failed` exactly when some client of that service name exited non-zero |
| Clients.LettersShape | scripts/docs/generate_all_doc_stubs.py:155-173 | The letter tabs are sorted, each letter once, one for exactly the initials in use |
| Clients.ClientUnderOwnLetter | scripts/docs/generate_all_doc_stubs.py:155-159 | A client is listed under its own letter's tab and no other |
| Clients.IndexFileLines | scripts/docs/generate_all_doc_stubs.py:186 | The index file splits back into its lines |
| Clients.AppendRows | scripts/docs/generate_all_doc_stubs.py:166-169 | Appends one table row per client, in order |
| Clients.AppendTab | scripts/docs/generate_all_doc_stubs.py:174-182 | Appends one content tab with its table |
| Clients.GroupsKeys | scripts/docs/generate_all_doc_stubs.py:156-159 | The grouping has a group for exactly the letters in use |
| Clients.GroupsFilter | scripts/docs/generate_all_doc_stubs.py:156-159 | Each group holds that letter's clients in input order |
| Clients.GroupsByLetter | scripts/docs/generate_all_doc_stubs.py:156-159 | Both of the above |
| Clients.GroupClient | scripts/docs/generate_all_doc_stubs.py:158-159 | One step of the grouping loop extends the grouping of the prefix |
| Clients.GroupByLetter | scripts/docs/generate_all_doc_stubs.py:155-159 | The grouping loop fails with IndexError exactly when a service name is empty; otherwise it returns the grouping and the letters in first-seen order |
| Clients.BuildIndexLines | scripts/docs/generate_all_doc_stubs.py:153-182 | The line-building loops produce exactly the index lines, or the IndexError |
| Clients.AppendLetterTabs | scripts/docs/generate_all_doc_stubs.py:172-182 | Appends one tab per letter, each from its group |
| Clients.GenerateClientsIndex | scripts/docs/generate_all_doc_stubs.py:142-192 | Writes the index lines joined by newlines with a trailing newline; returns false on OSError; an empty service name raises before writing |
| Nav.BuildNavLines | scripts/docs/generate_nav.py:41-60 | The lines are the three fixed items followed by one nested item per client directory in sorted order; the count is the number of nested items |
| Nav.GenerateNav | scripts/docs/generate_nav.py:23-73 | A missing clients directory returns false and writes nothing; otherwise `SUMMARY.md` gets the lines, and the result is false exactly when the write fails |
| Nav.NavFollowsDiscovery | scripts/docs/generate_nav.py:47-58 | The nested items are exactly the clients `discover_clients` finds, in the same order, linking their index pages |
| Nav.NavItemOneLine | scripts/docs/generate_nav.py:55-58 | A client's item is one line when its directory name is |
| Nav.SummaryFileLines | scripts/docs/generate_nav.py:67 | The written file splits back into exactly the navigation lines |
| Changelog.ChangeTypesRanked | scripts/changelog/new-release.py:20-28 | `CHANGE_TYPES` are the keys of the order and each type's rank is its position |
| Changelog.ValidChangeEntryRank | scripts/changelog/new-release.py:31-47 | An entry is valid exactly when its type is one of the six and its description is present and truthy; then its rank names its type |
| Changelog.SortByRankOrders | scripts/changelog/new-release.py:93-94 | The sort orders valid changes by type rank, is a permutation and keeps the order within each type |
| Changelog.LastIndexOf | scripts/changelog/new-release.py:79 | The last position of the character, or -1 when it does not occur |
| Changelog.JsonSuffix | scripts/changelog/new-release.py:79 | A name has the suffix `.json` exactly when a non-empty stem precedes `.json` |
| Changelog.CollectedSuccess | scripts/changelog/new-release.py:74-91 | The loop succeeds exactly when every change entry reads and validates, and then holds their objects in listing order |
| Changelog.CollectedFailure | scripts/changelog/new-release.py:79-91 | A failure is the first unreadable or invalid change entry's error |
| Changelog.FailureStops | scripts/changelog/new-release.py:85-91 | A failure on a prefix of the listing ends the run with it |
| Changelog.CollectNextReleaseChanges | scripts/changelog/new-release.py:68-96 | The collecting loop and sort return the collected changes or the failure |
| Changelog.CollectOrders | scripts/changelog/new-release.py:68-96 | Collected changes are valid, are a permutation of the change entries, are sorted by type rank, and keep listing order within a type |
| Changelog.CollectedValid | scripts/changelog/new-release.py:84-88 | A successful loop holds the change entries' objects, each valid |
| Changelog.Find | scripts/changelog/new-release.py:52-54 | The entry found has the name; none is found exactly when no entry has it |
| Changelog.VersionDataReadsBack | scripts/changelog/new-release.py:111-114 | The version record reads back as the changes in order and the summary exactly when truthy, with no other field |
| Changelog.TrailingNewlineAccepted | scripts/changelog/new-release.py:19 | The pattern as written accepts `1.2.3\n`, which is no version and puts a newline in the file name |
| Changelog.PatternAcceptsNewline | scripts/changelog/new-release.py:19 | Over every input, the pattern as written accepts beyond the full `x.y.z` matches exactly the full matches followed by one newline, and for those the newline reaches the version file's name |
| Changelog.VersionRoundTrip | scripts/changelog/new-release.py:19 | Every decimal `major.minor.patch` is a version and parses back to its numbers |
| Changelog.VersionCharacters | scripts/changelog/new-release.py:105 | A version holds only digits and dots, so its file name has no newline |
| Changelog.CleanupEmptiesNextRelease | scripts/changelog/new-release.py:123-131 | After cleanup the next run finds no change and no summary |
| Changelog.ChangesDir.CreateVersionFile | scripts/changelog/new-release.py:99-120 | Refuses an existing version file, fails on an unwritable one, and otherwise writes the version record; the entries are untouched |
| Changelog.ChangesDir.Unlink | scripts/changelog/new-release.py:128 | Removes exactly the one entry, or raises OSError on a file that cannot be removed and removes nothing |
| Changelog.ChangesDir.CleanupNextReleaseDir | scripts/changelog/new-release.py:123-131 | Leaves next-release as `AfterCleanup` and returns `CleanupOutcome`: the JSON files are removed up to the first one whose `unlink` raises, which ends the cleanup with that error |
| Changelog.CleanupCompletes | scripts/changelog/new-release.py:123-131 | The cleanup succeeds exactly when no JSON file resists removal; it then leaves exactly the entries that are not JSON files, in order, and counts the removed files |
| Changelog.CleanupStopsAt | scripts/changelog/new-release.py:125-128 | The first JSON file that cannot be removed ends the cleanup with its OSError; the JSON files before it are gone and everything from it on is still there |
| Changelog.ChangesDir.CreateNewRelease | scripts/changelog/new-release.py:134-185 | No `.changes`, an error or no change in next-release, a dry run, an existing or unwritable version file, a failed `unlink` or a release: each with its result; only the last two change anything, and both leave the version file written |
| Changelog.NewReleaseAsWritten | scripts/changelog/new-release.py:188-213 | `main` as written, gated on `re.match(VERSION_PATTERN, ...)`: a released version file is named after the accepted version and holds a newline exactly when the version is not a full `x.y.z` match |
| Changelog.NewRelease | scripts/changelog/new-release.py:188-213 | `main` with the corrected full-match check of the Finding, not the check as written: a malformed version fails before anything happens; a released version file is named after the version and holds no newline |
| Ranks.StableSortSorts | scripts/changelog/new-release.py:94 | Sorting by rank yields a sorted permutation |
| Ranks.StableSortKeepsOrder | scripts/changelog/new-release.py:94 | The items of one rank keep their order |
| Ranks.StableSortUnique | scripts/changelog/new-release.py:94 | Any sorted sequence with the same items per rank in the same order is the stable sort: it is the result of `list.sort` |

## Left out

- Loading a package with griffe is not modelled. A loaded package is an input, as griffe's expression and member shapes.
  - Griffe objects are taken to be truthy, so `members.get(...)` failing means the name is absent.
  - `canonical_path` of a name is the path it carries.
- Filesystem effects are maps: `Files.Directory` for written pages, `ChangesDir` for `.changes`.
  - Listings are input sequences.
  - `mkdir` always succeeds.
  - A write either happens or raises OSError on a path the caller marks unwritable.
- Logging, argparse, `print` output and the `main` functions are left out. An exception or `sys.exit(1)` is a `Failure`.
  - The `main` of generate_doc_stubs.py (its directory check and catch-all) is not modelled separately.
  - The `main` of generate_all_doc_stubs.py (discover, then stubs, then index, stopping at the first false) is not modelled separately.
  - For new-release.py, `Changelog.ExitCode` gives the exit status.
- The process pool and `subprocess.run` are left out. The generators' exit codes and the completion order are inputs to `Clients.GenerateAllDocStubs`.
- Python's `str.title()` and `upper()` are modelled for ASCII only; Unicode casing is left out.
- The regex `\d` is modelled as an ASCII digit; Python also matches other Unicode digits.
- JSON numbers are integers; floats are left out. `json.dump` formatting (indent, trailing newline) is left out: a version file is the record itself.
- A SUMMARY.json that is not valid UTF-8 raises UnicodeDecodeError, which the source does not catch. The model treats every unreadable SUMMARY.json as giving no summary.
- `get_package_changes_dir` (package validation in scripts/changelog/utils.py) is not part of this model. The presence of `.changes` is an input.
- The list and dict orders of a griffe module are its declaration order; a name stands at most once in a module.
- Clients.Letter: an empty service name gives the letter `' '`. It never reaches a page, because `Clients.GroupByLetter` fails on it first, as `service_name[0]` raises IndexError.
- Clients.Completed: states only that there is one result per completed run; how results pair with clients is stated by `Clients.FailedNames` and `Clients.AllDocStubsOk`.
- Analysis.UnionMemberNames: states only that at least one name is read; the names themselves are stated by `Analysis.UnionMemberNamesRoundTrip` for well-formed alternations.

## Findings

| source | as written | input that shows it | evidently intended | confidence | as-written member | corrected member |
|---|---|---|---|---|---|---|
| scripts/changelog/new-release.py:19 | `re.match` with `^\d+\.\d+\.\d+$` accepts a version followed by one newline, because `$` also matches before a final newline; the newline then becomes part of the version file's name | version `"1.2.3\n"` | accept exactly `x.y.z` with decimal digits (as `re.fullmatch` or `\Z` would) | medium, not executed | Changelog.NewReleaseAsWritten | Changelog.NewRelease |

`Changelog.MatchesVersionPattern` is the check as written, and
`Changelog.NewReleaseAsWritten` is `main` with it. `Changelog.PatternAcceptsNewline`
states over every input what it accepts beyond a full match, and
`Changelog.TrailingNewlineAccepted` gives one such input.
`Changelog.IsVersion` is the evidently intended check. `Changelog.NewRelease` uses it,
and `Changelog.VersionCharacters` proves that a version it accepts puts no newline in a file name.
