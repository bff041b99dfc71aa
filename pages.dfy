/** The markdown the doc-stub generator writes: mkdocstrings directives, the
    breadcrumb line, and the lines of the client index, operation, type and
    union pages. A page is a sequence of lines, each a heading, a blank, a
    sentence, a link, a directive head or a directive option, and `Render`
    gives each line's text exactly as written. Three readers pick out what a
    page shows a reader of the rendered site (its headings, its links and the
    objects it documents); the lemmas state each page's outline through them
    and show that reading the written text gives the same outline. */
module Pages {
  import opened Wrappers
  import opened Seqs
  import opened Text
  import opened Analysis

  // ---------------------------------------------------------------------
  // Lines

  datatype Line =
    | Heading(level: nat, title: string)       // `level` hashes, a space, the title
    | Blank                                    // an empty line
    | Prose(text: string)                      // a sentence of running text
    | ListLink(name: string, target: string)   // a list item linking to a page, the name in code style
    | Link(name: string, target: string)       // a bare link, the name in code style
    | DirectiveHead(path: string)              // `::: <path>`, the start of an mkdocstrings directive
    | Setting(setting: DirectiveSetting)       // an option line of a directive

  function Hashes(n: nat): (r: string)
    ensures |r| == n && forall k :: 0 <= k < n ==> r[k] == '#'
  {
    seq(n, _ => '#')
  }

  const DirectivePrefix := "::: "

  /** The text of a line, as the generator writes it. */
  function Render(l: Line): string
  {
    match l
    case Heading(n, t) => Hashes(n) + " " + t
    case Blank => ""
    case Prose(t) => t
    case ListLink(name, target) => "- [`" + name + "`](" + target + ")"
    case Link(name, target) => "[`" + name + "`](" + target + ")"
    case DirectiveHead(p) => DirectivePrefix + p
    case Setting(t) => SettingText(t)
  }

  function RenderLines(lines: seq<Line>): seq<string>
  {
    Map(lines, Render)
  }

  // ---------------------------------------------------------------------
  // Directives

  /** The arguments of `_mkdocs_directive`; `members` is `None` when the
      option is omitted. */
  datatype DirectiveOptions = DirectiveOptions(
    modulePath: string,
    headingLevel: nat,
    members: Option<bool>,
    mergeInitIntoClass: bool,
    ignoreInitSummary: bool)

  /** The defaults: heading level 3 and no further option. */
  function Defaults(modulePath: string): DirectiveOptions
  {
    DirectiveOptions(modulePath, 3, None, false, false)
  }

  const OptionsLine := "    options:"
  const LevelPrefix := "        heading_level: "
  const MembersPrefix := "        members: "
  const MergeLine := "        merge_init_into_class: true"
  const DocstringOptionsLine := "        docstring_options:"
  const IgnoreSummaryLine := "            ignore_init_summary: true"

  function MembersLine(b: bool): string
  {
    MembersPrefix + (if b then "true" else "false")
  }

  /** The option lines after the heading level, each present only when asked for. */
  function OptionLines(o: DirectiveOptions): seq<string>
  {
    (if o.members.Some? then [MembersLine(o.members.value)] else [])
    + (if o.mergeInitIntoClass then [MergeLine] else [])
    + (if o.ignoreInitSummary then [DocstringOptionsLine, IgnoreSummaryLine] else [])
  }

  /** The option lines of a directive. */
  datatype DirectiveSetting =
    | OptionsHeader
    | HeadingLevel(level: nat)
    | Members(show: bool)
    | MergeInit
    | DocstringOptions
    | IgnoreInitSummary

  /** The text of an option line, indentation included. */
  function SettingText(t: DirectiveSetting): (r: string)
    ensures r != [] && r[0] == ' '
  {
    match t
    case OptionsHeader => OptionsLine
    case HeadingLevel(n) => LevelPrefix + NatToString(n)
    case Members(b) => MembersLine(b)
    case MergeInit => MergeLine
    case DocstringOptions => DocstringOptionsLine
    case IgnoreInitSummary => IgnoreSummaryLine
  }

  /** `_mkdocs_directive`: the object's path, the options header and the
      heading level always; one line for `members` when it is given, one for
      merging `__init__`, two for ignoring the init summary. */
  function Directive(o: DirectiveOptions): (r: seq<Line>)
    ensures |r| == 3 + (if o.members.Some? then 1 else 0) + (if o.mergeInitIntoClass then 1 else 0)
                     + (if o.ignoreInitSummary then 2 else 0)
    ensures r[0] == DirectiveHead(o.modulePath)
    ensures forall i :: 1 <= i < |r| ==> r[i].Setting?
  {
    [DirectiveHead(o.modulePath), Setting(OptionsHeader), Setting(HeadingLevel(o.headingLevel))]
    + (if o.members.Some? then [Setting(Members(o.members.value))] else [])
    + (if o.mergeInitIntoClass then [Setting(MergeInit)] else [])
    + (if o.ignoreInitSummary then [Setting(DocstringOptions), Setting(IgnoreInitSummary)] else [])
  }

  predicate AllDigits(s: string)
  {
    forall k :: 0 <= k < |s| ==> '0' <= s[k] <= '9'
  }

  /** Reads the optional lines of a directive back: the `members` value,
      whether `__init__` is merged and whether the init summary is ignored. */
  function ParseOptionLines(rest: seq<string>): Option<(Option<bool>, bool, bool)>
  {
    var members :=
      if rest != [] && rest[0] == MembersLine(true) then Some(true)
      else if rest != [] && rest[0] == MembersLine(false) then Some(false)
      else None;
    var afterMembers := if members.Some? then rest[1..] else rest;
    var merge := afterMembers != [] && afterMembers[0] == MergeLine;
    var afterMerge := if merge then afterMembers[1..] else afterMembers;
    if afterMerge == [] then Some((members, merge, false))
    else if afterMerge == [DocstringOptionsLine, IgnoreSummaryLine] then Some((members, merge, true))
    else None
  }

  /** Reads the options back from the written lines of one directive, or
      `None` when the lines are not one directive. */
  function ParseDirective(lines: seq<string>): Option<DirectiveOptions>
  {
    if |lines| < 3 || !StartsWith(lines[0], DirectivePrefix) || lines[1] != OptionsLine
       || !StartsWith(lines[2], LevelPrefix)
    then None
    else
      var digits := lines[2][|LevelPrefix|..];
      if digits == [] || !AllDigits(digits) then None
      else
        match ParseOptionLines(lines[3..])
        case None => None
        case Some(parsed) =>
          Some(DirectiveOptions(lines[0][|DirectivePrefix|..], ParseNat(digits), parsed.0, parsed.1, parsed.2))
  }

  lemma OptionLinesRoundTrip(o: DirectiveOptions)
    ensures ParseOptionLines(OptionLines(o)) == Some((o.members, o.mergeInitIntoClass, o.ignoreInitSummary))
  {
    assert MembersLine(true) != MembersLine(false) by {
      assert MembersLine(true)[|MembersPrefix|] != MembersLine(false)[|MembersPrefix|];
    }
    assert MembersLine(true) != DocstringOptionsLine && MembersLine(false) != DocstringOptionsLine by {
      assert MembersLine(true)[8] != DocstringOptionsLine[8];
      assert MembersLine(false)[8] != DocstringOptionsLine[8];
    }
    assert MergeLine != DocstringOptionsLine by {
      assert MergeLine[8] != DocstringOptionsLine[8];
    }
  }

  /** Every written directive reads back as the options it was written with. */
  lemma DirectiveRoundTrip(o: DirectiveOptions)
    ensures ParseDirective(RenderLines(Directive(o))) == Some(o)
  {
    var d := Directive(o);
    var lines := RenderLines(d);
    var digits := NatToString(o.headingLevel);
    assert lines[0] == DirectivePrefix + o.modulePath;
    assert lines[0][|DirectivePrefix|..] == o.modulePath;
    assert lines[1] == OptionsLine;
    assert lines[2] == LevelPrefix + digits;
    assert lines[2][|LevelPrefix|..] == digits;
    assert lines[3..] == OptionLines(o) by {
      var opts := OptionLines(o);
      assert |lines| == 3 + |opts|;
      forall i | 0 <= i < |opts| ensures lines[3 + i] == opts[i] {
        assert lines[3 + i] == SettingText(d[3 + i].setting);
      }
    }
    OptionLinesRoundTrip(o);
    ParseNatToString(o.headingLevel);
  }

  // ---------------------------------------------------------------------
  // Breadcrumb and page text

  const BreadcrumbOpen := "<span class=\"breadcrumb\">"
  const BreadcrumbClose := "</span>"
  const BreadcrumbSeparator := "&nbsp;&nbsp;>&nbsp;&nbsp;"

  /** The breadcrumb's link back to the client index. */
  function HomeLink(serviceName: string): string
  {
    "[" + serviceName + "](../index.md)"
  }

  /** The breadcrumb's link to the category's section of the client index,
      anchored by the lower-cased category. */
  function SectionLink(category: string): string
  {
    "[" + category + "](../index.md#" + LowerStr(category) + ")"
  }

  /** `_breadcrumb` without its final newline: the client index, the
      category and the page's own name, in a breadcrumb span. */
  function BreadcrumbLine(serviceName: string, category: string, name: string): (r: string)
    ensures StartsWith(r, BreadcrumbOpen + HomeLink(serviceName))
    ensures EndsWith(r, BreadcrumbSeparator + name + BreadcrumbClose)
  {
    var head := BreadcrumbOpen + HomeLink(serviceName);
    var tail := BreadcrumbSeparator + name + BreadcrumbClose;
    var r := head + (BreadcrumbSeparator + SectionLink(category)) + tail;
    assert r[..|head|] == head;
    assert r[|r| - |tail|..] == tail;
    r
  }

  /** `_breadcrumb`: one line of its own. */
  function Breadcrumb(serviceName: string, category: string, name: string): string
  {
    BreadcrumbLine(serviceName, category, name) + "\n"
  }

  /** The text of an operation, type or union page: the breadcrumb, then the
      page's lines joined by newlines (no newline after the last). */
  function PageText(crumb: string, lines: seq<Line>): string
  {
    crumb + Join(RenderLines(lines), "\n")
  }

  predicate NoNewline(s: string)
  {
    '\n' !in s
  }

  lemma NoNewlineAppend(a: string, b: string)
    requires NoNewline(a) && NoNewline(b)
    ensures NoNewline(a + b)
  {
  }

  lemma LowerKeepsNewline(s: string)
    requires NoNewline(s)
    ensures NoNewline(LowerStr(s))
  {
  }

  /** A breadcrumb built from single-line parts is a single line. */
  lemma BreadcrumbLineOneLine(serviceName: string, category: string, name: string)
    requires NoNewline(serviceName) && NoNewline(category) && NoNewline(name)
    ensures NoNewline(BreadcrumbLine(serviceName, category, name))
  {
    var home := HomeLink(serviceName);
    var section := SectionLink(category);
    assert NoNewline(home) by {
      NoNewlineAppend("[", serviceName);
      NoNewlineAppend("[" + serviceName, "](../index.md)");
    }
    assert NoNewline(section) by {
      LowerKeepsNewline(category);
      NoNewlineAppend("[", category);
      NoNewlineAppend("[" + category, "](../index.md#");
      NoNewlineAppend("[" + category + "](../index.md#", LowerStr(category));
      NoNewlineAppend("[" + category + "](../index.md#" + LowerStr(category), ")");
    }
    NoNewlineAppend(BreadcrumbOpen, home);
    NoNewlineAppend(BreadcrumbSeparator, section);
    NoNewlineAppend(BreadcrumbOpen + home, BreadcrumbSeparator + section);
    NoNewlineAppend(BreadcrumbSeparator, name);
    NoNewlineAppend(BreadcrumbSeparator + name, BreadcrumbClose);
    NoNewlineAppend(BreadcrumbOpen + home + (BreadcrumbSeparator + section), BreadcrumbSeparator + name + BreadcrumbClose);
  }

  /** A written page splits back into the breadcrumb line followed by exactly
      the page's written lines, when none of the parts holds a newline. */
  lemma PageTextLines(serviceName: string, category: string, name: string, lines: seq<Line>)
    requires NoNewline(serviceName) && NoNewline(category) && NoNewline(name)
    requires lines != [] && forall i :: 0 <= i < |lines| ==> NoNewline(Render(lines[i]))
    ensures Split(PageText(Breadcrumb(serviceName, category, name), lines), '\n')
            == [BreadcrumbLine(serviceName, category, name)] + RenderLines(lines)
  {
    var line := BreadcrumbLine(serviceName, category, name);
    BreadcrumbLineOneLine(serviceName, category, name);
    var parts := [line] + RenderLines(lines);
    assert parts[1..] == RenderLines(lines);
    assert Join(parts, "\n") == PageText(Breadcrumb(serviceName, category, name), lines);
    SplitJoin(parts, '\n');
  }

  // ---------------------------------------------------------------------
  // Readers

  /** The three things a reader of a page looks for: headings, links (list
      items or bare) and the objects documented by directives. */
  datatype Reader = HeadingReader | LinkReader | DirectiveReader

  predicate Shows(r: Reader, l: Line)
  {
    match r
    case HeadingReader => l.Heading?
    case LinkReader => l.ListLink? || l.Link?
    case DirectiveReader => l.DirectiveHead?
  }

  /** What `r` picks out of one line: the line itself, or nothing. */
  function Pick(r: Reader, l: Line): seq<Line>
  {
    if Shows(r, l) then [l] else []
  }

  /** The lines `r` picks out of `lines[i..]`, in page order. */
  function ReadFrom(r: Reader, lines: seq<Line>, i: nat): seq<Line>
    requires i <= |lines|
    decreases |lines| - i
  {
    if i == |lines| then [] else Pick(r, lines[i]) + ReadFrom(r, lines, i + 1)
  }

  /** The lines `r` picks out of a page, in page order. */
  function Read(r: Reader, lines: seq<Line>): seq<Line>
  {
    ReadFrom(r, lines, 0)
  }

  function Headings(lines: seq<Line>): seq<Line> { Read(HeadingReader, lines) }
  function Links(lines: seq<Line>): seq<Line> { Read(LinkReader, lines) }
  function Directives(lines: seq<Line>): seq<Line> { Read(DirectiveReader, lines) }

  lemma {:induction false} ReadFromShift(r: Reader, a: seq<Line>, b: seq<Line>, j: nat)
    requires j <= |b|
    ensures ReadFrom(r, a + b, |a| + j) == ReadFrom(r, b, j)
    decreases |b| - j
  {
    var ab := a + b;
    assert |ab| == |a| + |b|;
    if j < |b| {
      assert ab[|a| + j] == b[j];
      ReadFromShift(r, a, b, j + 1);
      assert ReadFrom(r, ab, |a| + j) == Pick(r, b[j]) + ReadFrom(r, ab, |a| + j + 1);
    }
  }

  lemma {:induction false} ReadFromAppend(r: Reader, a: seq<Line>, b: seq<Line>, i: nat)
    requires i <= |a|
    ensures ReadFrom(r, a + b, i) == ReadFrom(r, a, i) + Read(r, b)
    decreases |a| - i
  {
    var ab := a + b;
    assert |ab| == |a| + |b|;
    if i == |a| {
      ReadFromShift(r, a, b, 0);
      assert ReadFrom(r, a, i) == [];
    } else {
      assert ab[i] == a[i];
      ReadFromAppend(r, a, b, i + 1);
      assert ReadFrom(r, ab, i) == Pick(r, a[i]) + ReadFrom(r, ab, i + 1);
      assert ReadFrom(r, a, i) == Pick(r, a[i]) + ReadFrom(r, a, i + 1);
    }
  }

  /** Reading a concatenation reads each part in turn. */
  lemma ReadAppend(r: Reader, a: seq<Line>, b: seq<Line>)
    ensures Read(r, a + b) == Read(r, a) + Read(r, b)
  {
    ReadFromAppend(r, a, b, 0);
  }

  lemma ReadThree(r: Reader, a: seq<Line>, b: seq<Line>, c: seq<Line>)
    ensures Read(r, a + b + c) == Read(r, a) + Read(r, b) + Read(r, c)
  {
    ReadAppend(r, a, b);
    ReadAppend(r, a + b, c);
  }

  lemma ReadFour(r: Reader, a: seq<Line>, b: seq<Line>, c: seq<Line>, d: seq<Line>)
    ensures Read(r, a + b + c + d) == Read(r, a) + Read(r, b) + Read(r, c) + Read(r, d)
  {
    ReadThree(r, a, b, c);
    ReadAppend(r, a + b + c, d);
  }

  lemma ReadFive(r: Reader, a: seq<Line>, b: seq<Line>, c: seq<Line>, d: seq<Line>, e: seq<Line>)
    ensures Read(r, a + b + c + d + e) == Read(r, a) + Read(r, b) + Read(r, c) + Read(r, d) + Read(r, e)
  {
    ReadFour(r, a, b, c, d);
    ReadAppend(r, a + b + c + d, e);
  }

  lemma {:induction false} ReadFromNothing(r: Reader, lines: seq<Line>, i: nat)
    requires i <= |lines|
    requires forall k :: i <= k < |lines| ==> !Shows(r, lines[k])
    ensures ReadFrom(r, lines, i) == []
    decreases |lines| - i
  {
    if i < |lines| {
      ReadFromNothing(r, lines, i + 1);
    }
  }

  lemma {:induction false} ReadFromEverything(r: Reader, lines: seq<Line>, i: nat)
    requires i <= |lines|
    requires forall k :: i <= k < |lines| ==> Shows(r, lines[k])
    ensures ReadFrom(r, lines, i) == lines[i..]
    decreases |lines| - i
  {
    if i < |lines| {
      ReadFromEverything(r, lines, i + 1);
      assert lines[i..] == [lines[i]] + lines[i + 1..];
    }
  }

  lemma ReadLine(r: Reader, a: Line)
    ensures Read(r, [a]) == Pick(r, a)
  {
    assert ReadFrom(r, [a], 1) == [];
  }

  lemma ReadLines2(r: Reader, a: Line, b: Line)
    ensures Read(r, [a, b]) == Pick(r, a) + Pick(r, b)
  {
    var s := [a, b];
    assert ReadFrom(r, s, 2) == [];
    assert ReadFrom(r, s, 1) == Pick(r, b);
  }

  lemma ReadLines3(r: Reader, a: Line, b: Line, c: Line)
    ensures Read(r, [a, b, c]) == Pick(r, a) + (Pick(r, b) + Pick(r, c))
  {
    var s := [a, b, c];
    assert ReadFrom(r, s, 3) == [];
    assert ReadFrom(r, s, 2) == Pick(r, c);
    assert ReadFrom(r, s, 1) == Pick(r, b) + Pick(r, c);
  }

  lemma ReadLines4(r: Reader, a: Line, b: Line, c: Line, d: Line)
    ensures Read(r, [a, b, c, d]) == Pick(r, a) + (Pick(r, b) + (Pick(r, c) + Pick(r, d)))
  {
    var s := [a, b, c, d];
    assert ReadFrom(r, s, 4) == [];
    assert ReadFrom(r, s, 3) == Pick(r, d);
    assert ReadFrom(r, s, 2) == Pick(r, c) + Pick(r, d);
    assert ReadFrom(r, s, 1) == Pick(r, b) + (Pick(r, c) + Pick(r, d));
  }

  /** A directive shows only its head, and only to the directive reader. */
  lemma ReadDirective(r: Reader, o: DirectiveOptions)
    ensures Read(r, Directive(o)) == Pick(r, DirectiveHead(o.modulePath))
  {
    var d := Directive(o);
    ReadFromNothing(r, d, 1);
  }

  // ---------------------------------------------------------------------
  // Reading the written text

  /** How a reader of the written markdown tells the same lines apart: by
      their first character. */
  predicate ShowsText(r: Reader, s: string)
  {
    s != [] &&
    match r
    case HeadingReader => s[0] == '#'
    case LinkReader => s[0] == '[' || s[0] == '-'
    case DirectiveReader => s[0] == ':'
  }

  /** The texts `r` picks out of `texts[i..]`, in order. */
  function ReadTextFrom(r: Reader, texts: seq<string>, i: nat): seq<string>
    requires i <= |texts|
    decreases |texts| - i
  {
    if i == |texts| then []
    else (if ShowsText(r, texts[i]) then [texts[i]] else []) + ReadTextFrom(r, texts, i + 1)
  }

  /** The lines of written markdown that `r` picks out, in order. */
  function ReadText(r: Reader, texts: seq<string>): seq<string>
  {
    ReadTextFrom(r, texts, 0)
  }

  /** Lines whose text starts the way their kind says: a heading has at least
      one hash, a sentence does not start like a heading, link or directive,
      an option line is indented by construction. */
  predicate WellFormed(l: Line)
  {
    match l
    case Heading(n, _) => n >= 1
    case Prose(t) => t == [] || (t[0] != '#' && t[0] != '[' && t[0] != '-' && t[0] != ':')
    case _ => true
  }

  predicate AllWellFormed(lines: seq<Line>)
  {
    forall i :: 0 <= i < |lines| ==> WellFormed(lines[i])
  }

  lemma ShowsRendered(r: Reader, l: Line)
    requires WellFormed(l)
    ensures ShowsText(r, Render(l)) <==> Shows(r, l)
  {
    match l
    case Heading(n, t) =>
      assert Render(l)[0] == Hashes(n)[0];
    case _ =>
  }

  lemma {:induction false} ReadRenderedFrom(r: Reader, lines: seq<Line>, i: nat)
    requires i <= |lines| && AllWellFormed(lines)
    ensures ReadTextFrom(r, RenderLines(lines), i) == RenderLines(ReadFrom(r, lines, i))
    decreases |lines| - i
  {
    if i < |lines| {
      var texts := RenderLines(lines);
      var l := lines[i];
      assert texts[i] == Render(l);
      ReadRenderedFrom(r, lines, i + 1);
      ShowsRendered(r, l);
      RenderPick(r, l);
      MapAppend(Pick(r, l), ReadFrom(r, lines, i + 1), Render);
    }
  }

  lemma RenderPick(r: Reader, l: Line)
    ensures RenderLines(Pick(r, l)) == if Shows(r, l) then [Render(l)] else []
  {
  }

  /** Reading the written text of well-formed lines picks out the written
      text of exactly the lines the reader picks out of the page. */
  lemma ReadRendered(r: Reader, lines: seq<Line>)
    requires AllWellFormed(lines)
    ensures ReadText(r, RenderLines(lines)) == RenderLines(Read(r, lines))
  {
    ReadRenderedFrom(r, lines, 0);
  }

  lemma WellFormedAppend(a: seq<Line>, b: seq<Line>)
    requires AllWellFormed(a) && AllWellFormed(b)
    ensures AllWellFormed(a + b)
  {
    assert forall i :: 0 <= i < |a + b| ==> (a + b)[i] == if i < |a| then a[i] else b[i - |a|];
  }

  lemma DirectiveWellFormed(o: DirectiveOptions)
    ensures AllWellFormed(Directive(o))
  {
  }

  // ---------------------------------------------------------------------
  // Client index page

  /** A list item linking to a page of `folder`. */
  function ItemLink(folder: string, name: string): Line
  {
    ListLink(name, folder + "/" + name + ".md")
  }

  /** One list item per name, in the order given. */
  function ItemLinks(folder: string, names: seq<string>): (r: seq<Line>)
    ensures |r| == |names| && forall i :: 0 <= i < |names| ==> r[i] == ItemLink(folder, names[i])
    decreases |names|
  {
    if names == [] then [] else [ItemLink(folder, names[0])] + ItemLinks(folder, names[1..])
  }

  function Ident(s: string): string { s }

  /** The links of a section, in name order. */
  function LinkList(folder: string, names: seq<string>): seq<Line>
  {
    ItemLinks(folder, SortBy(names, Ident))
  }

  predicate AllListLinks(links: seq<Line>)
  {
    forall i :: 0 <= i < |links| ==> links[i].ListLink?
  }

  /** A list of links shows only to the link reader, which picks out all of it. */
  lemma ReadListLinks(r: Reader, links: seq<Line>)
    requires AllListLinks(links)
    ensures Read(r, links) == if r == LinkReader then links else []
  {
    if r == LinkReader {
      ReadFromEverything(r, links, 0);
    } else {
      ReadFromNothing(r, links, 0);
    }
  }

  /** A section's links are list items, one per name, so there are none
      exactly when there are no names. */
  lemma LinkListIsLinks(folder: string, names: seq<string>)
    ensures AllListLinks(LinkList(folder, names))
    ensures LinkList(folder, names) == [] <==> names == []
  {
  }

  lemma ReadLinkList(r: Reader, folder: string, names: seq<string>)
    ensures Read(r, LinkList(folder, names)) == if r == LinkReader then LinkList(folder, names) else []
    ensures LinkList(folder, names) == [] <==> names == []
  {
    LinkListIsLinks(folder, names);
    ReadListLinks(r, LinkList(folder, names));
  }

  function ClientDirective(c: ClientInfo): DirectiveOptions
  {
    DirectiveOptions(c.modulePath, 3, Some(false), true, true)
  }

  function ConfigDirective(c: ClientInfo): DirectiveOptions
  {
    DirectiveOptions(c.config.modulePath, 3, None, true, true)
  }

  /** The title, the client section and its directive. */
  function IndexHead(serviceName: string, c: ClientInfo): seq<Line>
  {
    [Heading(1, serviceName), Blank, Heading(2, "Client"), Blank] + Directive(ClientDirective(c)) + [Blank]
  }

  /** The operations section, listing the given links; none when there are
      no operations to link. */
  function OperationsSection(links: seq<Line>): seq<Line>
  {
    if links == [] then [] else [Heading(2, "Operations"), Blank] + links + [Blank]
  }

  /** The configuration section: the config class and the plugin. */
  function ConfigurationSection(c: ClientInfo): seq<Line>
  {
    [Heading(2, "Configuration"), Blank] + Directive(ConfigDirective(c)) + [Blank] + Directive(Defaults(c.plugin.modulePath))
  }

  /** One of the model sections of the index: its title, its folder and the
      names of its items. */
  datatype Section = Section(title: string, folder: string, names: seq<string>)

  function OperationName(op: OperationInfo): string { op.name }
  function UnionName(u: UnionInfo): string { u.name }

  function StructuresSection(m: ModelsInfo): Section { Section("Structures", "structures", Map(m.structures, NameOfType)) }
  function ErrorsSection(m: ModelsInfo): Section { Section("Errors", "errors", Map(m.errors, NameOfType)) }
  function UnionsSection(m: ModelsInfo): Section { Section("Unions", "unions", Map(m.unions, UnionName)) }
  function EnumsSection(m: ModelsInfo): Section { Section("Enums", "enums", Map(m.enums, NameOfType)) }

  /** The model sections, in their fixed order. */
  function ModelSections(m: ModelsInfo): seq<Section>
  {
    [StructuresSection(m), ErrorsSection(m), UnionsSection(m), EnumsSection(m)]
  }

  /** A section with a title and its links; none when there is nothing to link. */
  function SectionBlock(title: string, links: seq<Line>): seq<Line>
  {
    if links == [] then [] else [Blank, Heading(2, title), Blank] + links
  }

  /** A model section's lines; none for a section without items. */
  function SectionLines(s: Section): seq<Line>
  {
    SectionBlock(s.title, LinkList(s.folder, s.names))
  }

  /** The lines of the sections `ss[i..]`, one after the other. */
  function SectionsFrom(ss: seq<Section>, i: nat): seq<Line>
    requires i <= |ss|
    decreases |ss| - i
  {
    if i == |ss| then [] else SectionLines(ss[i]) + SectionsFrom(ss, i + 1)
  }

  /** The index around its link lists: the head, the operations section
      listing `opLinks`, the configuration section and the sections `ss`. */
  function IndexLayout(serviceName: string, c: ClientInfo, opLinks: seq<Line>, ss: seq<Section>): seq<Line>
  {
    IndexHead(serviceName, c) + OperationsSection(opLinks) + ConfigurationSection(c) + SectionsFrom(ss, 0)
  }

  /** The lines of `index.md`, joined by newlines when written. */
  function IndexPage(serviceName: string, c: ClientInfo): seq<Line>
  {
    IndexLayout(serviceName, c, LinkList("operations", Map(c.operations, OperationName)), ModelSections(c.models))
  }

  lemma ReadIndexHead(r: Reader, serviceName: string, c: ClientInfo)
    ensures Read(r, IndexHead(serviceName, c))
            == Pick(r, Heading(1, serviceName)) + Pick(r, Heading(2, "Client")) + Pick(r, DirectiveHead(c.modulePath))
  {
    ReadLines4(r, Heading(1, serviceName), Blank, Heading(2, "Client"), Blank);
    ReadDirective(r, ClientDirective(c));
    ReadLine(r, Blank);
    ReadThree(r, [Heading(1, serviceName), Blank, Heading(2, "Client"), Blank], Directive(ClientDirective(c)), [Blank]);
  }

  lemma ReadOperationsSection(r: Reader, links: seq<Line>)
    ensures Read(r, OperationsSection(links))
            == if links == [] then [] else Pick(r, Heading(2, "Operations")) + Read(r, links)
  {
    if links != [] {
      ReadLines2(r, Heading(2, "Operations"), Blank);
      ReadLine(r, Blank);
      ReadThree(r, [Heading(2, "Operations"), Blank], links, [Blank]);
    }
  }

  lemma ReadConfigurationSection(r: Reader, c: ClientInfo)
    ensures Read(r, ConfigurationSection(c))
            == Pick(r, Heading(2, "Configuration")) + Pick(r, DirectiveHead(c.config.modulePath))
               + Pick(r, DirectiveHead(c.plugin.modulePath))
  {
    ReadLines2(r, Heading(2, "Configuration"), Blank);
    ReadDirective(r, ConfigDirective(c));
    ReadDirective(r, Defaults(c.plugin.modulePath));
    ReadLine(r, Blank);
    ReadFour(r, [Heading(2, "Configuration"), Blank], Directive(ConfigDirective(c)), [Blank],
      Directive(Defaults(c.plugin.modulePath)));
  }

  lemma ReadSectionBlock(r: Reader, title: string, links: seq<Line>)
    ensures Read(r, SectionBlock(title, links))
            == if links == [] then [] else Pick(r, Heading(2, title)) + Read(r, links)
  {
    if links != [] {
      ReadLines3(r, Blank, Heading(2, title), Blank);
      ReadAppend(r, [Blank, Heading(2, title), Blank], links);
    }
  }

  /** A section's heading, when it has items. */
  function SectionHeading(s: Section): seq<Line>
  {
    if s.names == [] then [] else [Heading(2, s.title)]
  }

  /** What each reader picks out of a model section: its heading, its links. */
  lemma ModelSectionRead(s: Section)
    ensures Headings(SectionLines(s)) == SectionHeading(s)
    ensures Links(SectionLines(s)) == LinkList(s.folder, s.names)
    ensures Directives(SectionLines(s)) == []
  {
    var links := LinkList(s.folder, s.names);
    assert Headings(SectionLines(s)) == SectionHeading(s) by {
      ReadSectionBlock(HeadingReader, s.title, links);
      ReadLinkList(HeadingReader, s.folder, s.names);
    }
    assert Links(SectionLines(s)) == links by {
      ReadSectionBlock(LinkReader, s.title, links);
      ReadLinkList(LinkReader, s.folder, s.names);
    }
    assert Directives(SectionLines(s)) == [] by {
      ReadSectionBlock(DirectiveReader, s.title, links);
      ReadLinkList(DirectiveReader, s.folder, s.names);
    }
  }

  /** Four sections, one after the other. */
  lemma SectionsFour(a: Section, b: Section, c: Section, d: Section)
    ensures SectionsFrom([a, b, c, d], 0)
            == SectionLines(a) + (SectionLines(b) + (SectionLines(c) + SectionLines(d)))
  {
    var ss := [a, b, c, d];
    assert SectionsFrom(ss, 4) == [];
    assert SectionsFrom(ss, 3) == SectionLines(d);
    assert SectionsFrom(ss, 2) == SectionLines(c) + SectionLines(d);
    assert SectionsFrom(ss, 1) == SectionLines(b) + (SectionLines(c) + SectionLines(d));
  }

  lemma ReadRightFour(r: Reader, a: seq<Line>, b: seq<Line>, c: seq<Line>, d: seq<Line>)
    ensures Read(r, a + (b + (c + d))) == Read(r, a) + (Read(r, b) + (Read(r, c) + Read(r, d)))
  {
    ReadAppend(r, c, d);
    ReadAppend(r, b, c + d);
    ReadAppend(r, a, b + (c + d));
  }

  /** What the readers pick out of four sections in a row: their headings,
      their links, and no directive. */
  lemma ReadSectionsFour(a: Section, b: Section, c: Section, d: Section)
    ensures Headings(SectionsFrom([a, b, c, d], 0))
            == SectionHeading(a) + (SectionHeading(b) + (SectionHeading(c) + SectionHeading(d)))
    ensures Links(SectionsFrom([a, b, c, d], 0))
            == LinkList(a.folder, a.names) + (LinkList(b.folder, b.names)
               + (LinkList(c.folder, c.names) + LinkList(d.folder, d.names)))
    ensures Directives(SectionsFrom([a, b, c, d], 0)) == []
  {
    SectionsFour(a, b, c, d);
    ModelSectionRead(a);
    ModelSectionRead(b);
    ModelSectionRead(c);
    ModelSectionRead(d);
    ReadRightFour(HeadingReader, SectionLines(a), SectionLines(b), SectionLines(c), SectionLines(d));
    ReadRightFour(LinkReader, SectionLines(a), SectionLines(b), SectionLines(c), SectionLines(d));
    ReadRightFour(DirectiveReader, SectionLines(a), SectionLines(b), SectionLines(c), SectionLines(d));
  }

  /** Reading the concatenation of four parts whose readings are known. */
  lemma ComposeFour(r: Reader, p: seq<Line>, q: seq<Line>, u: seq<Line>, v: seq<Line>,
                    x: seq<Line>, y: seq<Line>, z: seq<Line>, w: seq<Line>)
    requires Read(r, p) == x && Read(r, q) == y && Read(r, u) == z && Read(r, v) == w
    ensures Read(r, p + q + u + v) == x + y + z + w
  {
    ReadFour(r, p, q, u, v);
  }

  lemma EmptiesAround<T>(a: seq<T>, b: seq<T>)
    ensures [] + a + [] + b == a + b
  {
  }

  lemma OneTwo<T>(x: T, y: T, z: T)
    ensures [x] + [] + [y, z] + [] == [x, y, z]
  {
  }

  lemma AppendFour<T>(a: seq<T>, w: seq<T>, x: seq<T>, y: seq<T>, z: seq<T>)
    ensures a + (w + (x + (y + z))) == a + w + x + y + z
  {
  }

  /** What each reader picks out of the index's head. */
  lemma IndexHeadRead(serviceName: string, c: ClientInfo)
    ensures Headings(IndexHead(serviceName, c)) == [Heading(1, serviceName), Heading(2, "Client")]
    ensures Links(IndexHead(serviceName, c)) == []
    ensures Directives(IndexHead(serviceName, c)) == [DirectiveHead(c.modulePath)]
  {
    ReadIndexHead(HeadingReader, serviceName, c);
    ReadIndexHead(LinkReader, serviceName, c);
    ReadIndexHead(DirectiveReader, serviceName, c);
  }

  /** What each reader picks out of the operations section. */
  lemma OperationsSectionRead(links: seq<Line>)
    requires AllListLinks(links)
    ensures Headings(OperationsSection(links)) == if links != [] then [Heading(2, "Operations")] else []
    ensures Links(OperationsSection(links)) == links
    ensures Directives(OperationsSection(links)) == []
  {
    ReadOperationsSection(HeadingReader, links);
    ReadListLinks(HeadingReader, links);
    ReadOperationsSection(LinkReader, links);
    ReadListLinks(LinkReader, links);
    ReadOperationsSection(DirectiveReader, links);
    ReadListLinks(DirectiveReader, links);
  }

  /** What each reader picks out of the configuration section. */
  lemma ConfigurationSectionRead(c: ClientInfo)
    ensures Headings(ConfigurationSection(c)) == [Heading(2, "Configuration")]
    ensures Links(ConfigurationSection(c)) == []
    ensures Directives(ConfigurationSection(c))
            == [DirectiveHead(c.config.modulePath), DirectiveHead(c.plugin.modulePath)]
  {
    ReadConfigurationSection(HeadingReader, c);
    ReadConfigurationSection(LinkReader, c);
    ReadConfigurationSection(DirectiveReader, c);
  }

  lemma LayoutHeadings(serviceName: string, c: ClientInfo, opLinks: seq<Line>, a: Section, b: Section, s: Section, d: Section)
    requires AllListLinks(opLinks)
    ensures Headings(IndexLayout(serviceName, c, opLinks, [a, b, s, d])) ==
      [Heading(1, serviceName), Heading(2, "Client")]
      + (if opLinks != [] then [Heading(2, "Operations")] else [])
      + [Heading(2, "Configuration")]
      + (SectionHeading(a) + (SectionHeading(b) + (SectionHeading(s) + SectionHeading(d))))
  {
    IndexHeadRead(serviceName, c);
    OperationsSectionRead(opLinks);
    ConfigurationSectionRead(c);
    ReadSectionsFour(a, b, s, d);
    ComposeFour(HeadingReader, IndexHead(serviceName, c), OperationsSection(opLinks), ConfigurationSection(c),
      SectionsFrom([a, b, s, d], 0),
      [Heading(1, serviceName), Heading(2, "Client")],
      if opLinks != [] then [Heading(2, "Operations")] else [],
      [Heading(2, "Configuration")],
      SectionHeading(a) + (SectionHeading(b) + (SectionHeading(s) + SectionHeading(d))));
  }

  lemma LayoutLinks(serviceName: string, c: ClientInfo, opLinks: seq<Line>, a: Section, b: Section, s: Section, d: Section)
    requires AllListLinks(opLinks)
    ensures Links(IndexLayout(serviceName, c, opLinks, [a, b, s, d])) ==
      opLinks + (LinkList(a.folder, a.names) + (LinkList(b.folder, b.names)
      + (LinkList(s.folder, s.names) + LinkList(d.folder, d.names))))
  {
    var rest := LinkList(a.folder, a.names) + (LinkList(b.folder, b.names)
      + (LinkList(s.folder, s.names) + LinkList(d.folder, d.names)));
    IndexHeadRead(serviceName, c);
    OperationsSectionRead(opLinks);
    ConfigurationSectionRead(c);
    ReadSectionsFour(a, b, s, d);
    ComposeFour(LinkReader, IndexHead(serviceName, c), OperationsSection(opLinks), ConfigurationSection(c),
      SectionsFrom([a, b, s, d], 0), [], opLinks, [], rest);
    EmptiesAround(opLinks, rest);
  }

  lemma LayoutDirectives(serviceName: string, c: ClientInfo, opLinks: seq<Line>, a: Section, b: Section, s: Section, d: Section)
    requires AllListLinks(opLinks)
    ensures Directives(IndexLayout(serviceName, c, opLinks, [a, b, s, d])) ==
      [DirectiveHead(c.modulePath), DirectiveHead(c.config.modulePath), DirectiveHead(c.plugin.modulePath)]
  {
    IndexHeadRead(serviceName, c);
    OperationsSectionRead(opLinks);
    ConfigurationSectionRead(c);
    ReadSectionsFour(a, b, s, d);
    ComposeFour(DirectiveReader, IndexHead(serviceName, c), OperationsSection(opLinks), ConfigurationSection(c),
      SectionsFrom([a, b, s, d], 0), [DirectiveHead(c.modulePath)], [],
      [DirectiveHead(c.config.modulePath), DirectiveHead(c.plugin.modulePath)], []);
    OneTwo(DirectiveHead(c.modulePath), DirectiveHead(c.config.modulePath), DirectiveHead(c.plugin.modulePath));
  }

  /** The headings of the model sections that have items, in the fixed order
      Structures, Errors, Unions, Enums. */
  function ModelHeadings(m: ModelsInfo): seq<Line>
  {
    (if m.structures != [] then [Heading(2, "Structures")] else [])
    + ((if m.errors != [] then [Heading(2, "Errors")] else [])
    + ((if m.unions != [] then [Heading(2, "Unions")] else [])
    + (if m.enums != [] then [Heading(2, "Enums")] else [])))
  }

  /** The index shows the client, then the operations (only when there are
      some), the configuration, then the model sections that have items, in
      the fixed order Structures, Errors, Unions, Enums. */
  lemma IndexHeadings(serviceName: string, c: ClientInfo)
    ensures Headings(IndexPage(serviceName, c)) ==
      [Heading(1, serviceName), Heading(2, "Client")]
      + (if c.operations != [] then [Heading(2, "Operations")] else [])
      + [Heading(2, "Configuration")]
      + ModelHeadings(c.models)
  {
    var m := c.models;
    var names := Map(c.operations, OperationName);
    LinkListIsLinks("operations", names);
    LayoutHeadings(serviceName, c, LinkList("operations", names),
      StructuresSection(m), ErrorsSection(m), UnionsSection(m), EnumsSection(m));
  }

  /** The index links every operation and every model to its page, each
      section in name order. */
  lemma IndexLinks(serviceName: string, c: ClientInfo)
    ensures Links(IndexPage(serviceName, c)) ==
      LinkList("operations", Map(c.operations, OperationName))
      + LinkList("structures", Map(c.models.structures, NameOfType))
      + LinkList("errors", Map(c.models.errors, NameOfType))
      + LinkList("unions", Map(c.models.unions, UnionName))
      + LinkList("enums", Map(c.models.enums, NameOfType))
  {
    var m := c.models;
    var names := Map(c.operations, OperationName);
    LinkListIsLinks("operations", names);
    LayoutLinks(serviceName, c, LinkList("operations", names),
      StructuresSection(m), ErrorsSection(m), UnionsSection(m), EnumsSection(m));
    AppendFour(LinkList("operations", names), LinkList("structures", Map(m.structures, NameOfType)),
      LinkList("errors", Map(m.errors, NameOfType)), LinkList("unions", Map(m.unions, UnionName)),
      LinkList("enums", Map(m.enums, NameOfType)));
  }

  /** The index documents the client class, the config class and the plugin,
      in that order. */
  lemma IndexDirectives(serviceName: string, c: ClientInfo)
    ensures Directives(IndexPage(serviceName, c)) ==
      [DirectiveHead(c.modulePath), DirectiveHead(c.config.modulePath), DirectiveHead(c.plugin.modulePath)]
  {
    var m := c.models;
    var names := Map(c.operations, OperationName);
    LinkListIsLinks("operations", names);
    LayoutDirectives(serviceName, c, LinkList("operations", names),
      StructuresSection(m), ErrorsSection(m), UnionsSection(m), EnumsSection(m));
  }

  // ---------------------------------------------------------------------
  // Operation pages

  /** Python truthiness of an optional name: present and not empty. */
  predicate IsSet(t: Option<string>)
  {
    t.Some? && t.value != []
  }

  /** A link to a union's page, as an operation page shows its event types. */
  function UnionLink(name: string): Line
  {
    Link(name, "../unions/" + name + ".md")
  }

  /** An event type's heading and link, when the type is set. */
  function EventTypeBlock(heading: Line, t: Option<string>): seq<Line>
  {
    if IsSet(t) then [heading, Blank, UnionLink(t.value), Blank] else []
  }

  function StreamIntro(st: StreamType): seq<Line>
  {
    [Prose("This operation returns " + st.Description() + "."), Blank, Heading(3, "Event Stream Structure"), Blank]
  }

  const InputEventHeading := Heading(4, "Input Event Type")
  const OutputEventHeading := Heading(4, "Output Event Type")

  /** What the page says under "Output": the output's directive, or for a
      stream the stream's description, its event types and the initial
      response's directive one heading level deeper. */
  function OutputSection(op: OperationInfo): seq<Line>
  {
    match op.streamType
    case None => Directive(Defaults(op.output.modulePath))
    case Some(st) =>
      StreamIntro(st)
      + EventTypeBlock(InputEventHeading, op.eventInputType)
      + EventTypeBlock(OutputEventHeading, op.eventOutputType)
      + [Heading(3, "Initial Response Structure"), Blank]
      + Directive(DirectiveOptions(op.output.modulePath, 4, None, false, false))
  }

  function OperationHead(op: OperationInfo): seq<Line>
  {
    [Heading(1, op.name), Blank, Heading(2, "Operation"), Blank] + Directive(Defaults(op.modulePath))
    + [Blank, Heading(2, "Input"), Blank] + Directive(Defaults(op.input.modulePath))
    + [Blank, Heading(2, "Output"), Blank]
  }

  /** The lines of `operations/<name>.md`. */
  function OperationPage(op: OperationInfo): seq<Line>
  {
    OperationHead(op) + OutputSection(op)
  }

  lemma ReadOperationHead(r: Reader, op: OperationInfo)
    ensures Read(r, OperationHead(op))
            == (Pick(r, Heading(1, op.name)) + (Pick(r, Blank) + (Pick(r, Heading(2, "Operation")) + Pick(r, Blank))))
               + Pick(r, DirectiveHead(op.modulePath))
               + (Pick(r, Blank) + (Pick(r, Heading(2, "Input")) + Pick(r, Blank)))
               + Pick(r, DirectiveHead(op.input.modulePath))
               + (Pick(r, Blank) + (Pick(r, Heading(2, "Output")) + Pick(r, Blank)))
  {
    ReadLines4(r, Heading(1, op.name), Blank, Heading(2, "Operation"), Blank);
    ReadDirective(r, Defaults(op.modulePath));
    ReadLines3(r, Blank, Heading(2, "Input"), Blank);
    ReadDirective(r, Defaults(op.input.modulePath));
    ReadLines3(r, Blank, Heading(2, "Output"), Blank);
    ReadFive(r, [Heading(1, op.name), Blank, Heading(2, "Operation"), Blank], Directive(Defaults(op.modulePath)),
      [Blank, Heading(2, "Input"), Blank], Directive(Defaults(op.input.modulePath)), [Blank, Heading(2, "Output"), Blank]);
  }

  lemma ReadEventTypeBlock(r: Reader, heading: Line, t: Option<string>)
    ensures Read(r, EventTypeBlock(heading, t))
            == if IsSet(t) then Pick(r, heading) + Pick(r, UnionLink(t.value)) else []
  {
    if IsSet(t) {
      ReadLines4(r, heading, Blank, UnionLink(t.value), Blank);
    }
  }

  lemma ReadStreamIntro(r: Reader, st: StreamType)
    ensures Read(r, StreamIntro(st)) == Pick(r, Heading(3, "Event Stream Structure"))
  {
    ReadLines4(r, Prose("This operation returns " + st.Description() + "."), Blank, Heading(3, "Event Stream Structure"), Blank);
  }

  lemma ReadOutputSection(r: Reader, op: OperationInfo)
    ensures Read(r, OutputSection(op))
            == match op.streamType
               case None => Pick(r, DirectiveHead(op.output.modulePath))
               case Some(_) =>
                 Pick(r, Heading(3, "Event Stream Structure"))
                 + Read(r, EventTypeBlock(InputEventHeading, op.eventInputType))
                 + Read(r, EventTypeBlock(OutputEventHeading, op.eventOutputType))
                 + Pick(r, Heading(3, "Initial Response Structure")) + Pick(r, DirectiveHead(op.output.modulePath))
  {
    match op.streamType
    case None =>
      ReadDirective(r, Defaults(op.output.modulePath));
    case Some(st) =>
      var o := DirectiveOptions(op.output.modulePath, 4, None, false, false);
      ReadStreamIntro(r, st);
      ReadLines2(r, Heading(3, "Initial Response Structure"), Blank);
      ReadDirective(r, o);
      ReadFive(r, StreamIntro(st), EventTypeBlock(InputEventHeading, op.eventInputType),
        EventTypeBlock(OutputEventHeading, op.eventOutputType), [Heading(3, "Initial Response Structure"), Blank], Directive(o));
  }

  /** The headings under "Output" of a streaming operation: the event
      stream's structure, each event type that is set, the initial response. */
  function StreamHeadings(op: OperationInfo): seq<Line>
  {
    [Heading(3, "Event Stream Structure")]
    + (if IsSet(op.eventInputType) then [InputEventHeading] else [])
    + (if IsSet(op.eventOutputType) then [OutputEventHeading] else [])
    + [Heading(3, "Initial Response Structure")]
  }

  /** The event-type links of a streaming operation, input first. */
  function EventLinks(op: OperationInfo): seq<Line>
  {
    (if IsSet(op.eventInputType) then [UnionLink(op.eventInputType.value)] else [])
    + (if IsSet(op.eventOutputType) then [UnionLink(op.eventOutputType.value)] else [])
  }

  /** Reading two parts whose readings are known. */
  lemma ComposeTwo(r: Reader, p: seq<Line>, q: seq<Line>, x: seq<Line>, y: seq<Line>)
    requires Read(r, p) == x && Read(r, q) == y
    ensures Read(r, p + q) == x + y
  {
    ReadAppend(r, p, q);
  }

  lemma EmptyLeft<T>(a: seq<T>)
    ensures [] + a == a
  {
  }

  lemma TwoOne<T>(x: T, y: T, z: T)
    ensures [x, y] + [z] == [x, y, z]
  {
  }

  /** What each reader picks out of an operation page's head. */
  lemma OperationHeadRead(op: OperationInfo)
    ensures Headings(OperationHead(op))
            == [Heading(1, op.name), Heading(2, "Operation"), Heading(2, "Input"), Heading(2, "Output")]
    ensures Links(OperationHead(op)) == []
    ensures Directives(OperationHead(op)) == [DirectiveHead(op.modulePath), DirectiveHead(op.input.modulePath)]
  {
    ReadOperationHead(HeadingReader, op);
    ReadOperationHead(LinkReader, op);
    ReadOperationHead(DirectiveReader, op);
  }

  lemma EventBlockHeadings(heading: Line, t: Option<string>)
    requires heading.Heading?
    ensures Headings(EventTypeBlock(heading, t)) == if IsSet(t) then [heading] else []
  {
    ReadEventTypeBlock(HeadingReader, heading, t);
  }

  lemma EventBlockLinks(heading: Line, t: Option<string>)
    requires heading.Heading?
    ensures Links(EventTypeBlock(heading, t)) == if IsSet(t) then [UnionLink(t.value)] else []
  {
    ReadEventTypeBlock(LinkReader, heading, t);
  }

  lemma EventBlockDirectives(heading: Line, t: Option<string>)
    requires heading.Heading?
    ensures Directives(EventTypeBlock(heading, t)) == []
  {
    ReadEventTypeBlock(DirectiveReader, heading, t);
  }

  lemma MiddleTwo<T>(x: T, a: seq<T>, b: seq<T>, y: T)
    ensures [x] + a + b + ([y] + []) == [x] + a + b + [y]
  {
  }

  lemma InnerTwo<T>(a: seq<T>, b: seq<T>)
    ensures [] + a + b + ([] + []) == a + b
  {
  }

  lemma OutputSectionHeadings(op: OperationInfo)
    ensures Headings(OutputSection(op)) == if op.streamType.None? then [] else StreamHeadings(op)
  {
    ReadOutputSection(HeadingReader, op);
    if op.streamType.Some? {
      EventBlockHeadings(InputEventHeading, op.eventInputType);
      EventBlockHeadings(OutputEventHeading, op.eventOutputType);
      MiddleTwo(Heading(3, "Event Stream Structure"),
        if IsSet(op.eventInputType) then [InputEventHeading] else [],
        if IsSet(op.eventOutputType) then [OutputEventHeading] else [],
        Heading(3, "Initial Response Structure"));
    }
  }

  lemma OutputSectionLinks(op: OperationInfo)
    ensures Links(OutputSection(op)) == if op.streamType.None? then [] else EventLinks(op)
  {
    ReadOutputSection(LinkReader, op);
    if op.streamType.Some? {
      EventBlockLinks(InputEventHeading, op.eventInputType);
      EventBlockLinks(OutputEventHeading, op.eventOutputType);
      InnerTwo(if IsSet(op.eventInputType) then [UnionLink(op.eventInputType.value)] else [],
        if IsSet(op.eventOutputType) then [UnionLink(op.eventOutputType.value)] else []);
    }
  }

  lemma OutputSectionDirectives(op: OperationInfo)
    ensures Directives(OutputSection(op)) == [DirectiveHead(op.output.modulePath)]
  {
    ReadOutputSection(DirectiveReader, op);
    if op.streamType.Some? {
      EventBlockDirectives(InputEventHeading, op.eventInputType);
      EventBlockDirectives(OutputEventHeading, op.eventOutputType);
    }
  }

  /** An operation page's outline: the operation, its input and its output;
      a streaming operation adds the event stream's structure, a heading for
      each event type that is set, and the initial response. */
  lemma OperationHeadings(op: OperationInfo)
    ensures Headings(OperationPage(op)) ==
      [Heading(1, op.name), Heading(2, "Operation"), Heading(2, "Input"), Heading(2, "Output")]
      + (if op.streamType.None? then [] else StreamHeadings(op))
  {
    OperationHeadRead(op);
    OutputSectionHeadings(op);
    ComposeTwo(HeadingReader, OperationHead(op), OutputSection(op),
      [Heading(1, op.name), Heading(2, "Operation"), Heading(2, "Input"), Heading(2, "Output")],
      if op.streamType.None? then [] else StreamHeadings(op));
  }

  /** An operation page links to the union page of each event type that is
      set, input first, and to nothing else; a page without a stream links
      to nothing. */
  lemma OperationLinks(op: OperationInfo)
    ensures Links(OperationPage(op)) == if op.streamType.None? then [] else EventLinks(op)
  {
    var e: seq<Line> := if op.streamType.None? then [] else EventLinks(op);
    OperationHeadRead(op);
    OutputSectionLinks(op);
    ComposeTwo(LinkReader, OperationHead(op), OutputSection(op), [], e);
    EmptyLeft(e);
  }

  /** An operation page documents the operation, its input and its output. */
  lemma OperationDirectives(op: OperationInfo)
    ensures Directives(OperationPage(op)) ==
      [DirectiveHead(op.modulePath), DirectiveHead(op.input.modulePath), DirectiveHead(op.output.modulePath)]
  {
    OperationHeadRead(op);
    OutputSectionDirectives(op);
    ComposeTwo(DirectiveReader, OperationHead(op), OutputSection(op),
      [DirectiveHead(op.modulePath), DirectiveHead(op.input.modulePath)], [DirectiveHead(op.output.modulePath)]);
    TwoOne(DirectiveHead(op.modulePath), DirectiveHead(op.input.modulePath), DirectiveHead(op.output.modulePath));
  }

  /** The page ends with the output's directive: at heading level 4 under a
      stream's initial response, at the default level 3 otherwise. */
  lemma OperationOutputDirective(op: OperationInfo)
    ensures var page := OperationPage(op);
      && |page| >= 3
      && page[|page| - 3..]
         == Directive(DirectiveOptions(op.output.modulePath, if op.streamType.Some? then 4 else 3, None, false, false))
  {
    var o := DirectiveOptions(op.output.modulePath, if op.streamType.Some? then 4 else 3, None, false, false);
    var f := OutputFront(op);
    assert OutputSection(op) == f + Directive(o) by {
      OutputSectionSplit(op);
    }
    EndsWithPart(OperationHead(op), f, Directive(o));
  }

  /** What comes before the output's directive under "Output". */
  function OutputFront(op: OperationInfo): seq<Line>
  {
    match op.streamType
    case None => []
    case Some(st) =>
      StreamIntro(st) + EventTypeBlock(InputEventHeading, op.eventInputType)
      + EventTypeBlock(OutputEventHeading, op.eventOutputType) + [Heading(3, "Initial Response Structure"), Blank]
  }

  lemma OutputSectionSplit(op: OperationInfo)
    ensures OutputSection(op)
            == OutputFront(op) + Directive(DirectiveOptions(op.output.modulePath, if op.streamType.Some? then 4 else 3, None, false, false))
  {
    if op.streamType.None? {
      EmptyLeft(Directive(Defaults(op.output.modulePath)));
    }
  }

  lemma EndsWithPart<T>(x: seq<T>, y: seq<T>, d: seq<T>)
    ensures var s := x + (y + d); s[|s| - |d|..] == d
  {
    var s := x + (y + d);
    assert s == (x + y) + d;
  }

  // ---------------------------------------------------------------------
  // Structure, error and enum pages

  /** The lines of `<category>/<name>.md` for a structure, an error or an
      enum; only enums pass `members`. */
  function TypePage(item: TypeInfo, sectionTitle: string, members: Option<bool>): seq<Line>
  {
    [Heading(1, item.name), Blank, Heading(2, sectionTitle)] + Directive(DirectiveOptions(item.modulePath, 3, members, false, false))
  }

  lemma ReadTypePage(r: Reader, item: TypeInfo, sectionTitle: string, members: Option<bool>)
    ensures Read(r, TypePage(item, sectionTitle, members))
            == Pick(r, Heading(1, item.name)) + Pick(r, Heading(2, sectionTitle)) + Pick(r, DirectiveHead(item.modulePath))
  {
    var o := DirectiveOptions(item.modulePath, 3, members, false, false);
    ReadLines3(r, Heading(1, item.name), Blank, Heading(2, sectionTitle));
    ReadDirective(r, o);
    ReadAppend(r, [Heading(1, item.name), Blank, Heading(2, sectionTitle)], Directive(o));
  }

  /** A type page has a title and a section heading, then the type's
      directive with the requested `members` option. */
  lemma TypePageContents(item: TypeInfo, sectionTitle: string, members: Option<bool>)
    ensures Headings(TypePage(item, sectionTitle, members)) == [Heading(1, item.name), Heading(2, sectionTitle)]
    ensures Links(TypePage(item, sectionTitle, members)) == []
    ensures TypePage(item, sectionTitle, members)[3..] == Directive(DirectiveOptions(item.modulePath, 3, members, false, false))
  {
    assert Headings(TypePage(item, sectionTitle, members)) == [Heading(1, item.name), Heading(2, sectionTitle)] by {
      ReadTypePage(HeadingReader, item, sectionTitle, members);
    }
    assert Links(TypePage(item, sectionTitle, members)) == [] by {
      ReadTypePage(LinkReader, item, sectionTitle, members);
    }
  }

  // ---------------------------------------------------------------------
  // Union pages

  /** A blank line and the member's directive, for each member in order. */
  function MemberBlocks(ms: seq<TypeInfo>): seq<Line>
    decreases |ms|
  {
    if ms == [] then []
    else MemberBlocks(ms[..|ms| - 1]) + ([Blank] + Directive(Defaults(ms[|ms| - 1].modulePath)))
  }

  function UnionHead(u: UnionInfo): seq<Line>
  {
    [Heading(1, u.name), Blank, Heading(2, "Union Type")] + Directive(Defaults(u.modulePath)) + [Blank]
  }

  /** The member section of a union page; none for a union without members. */
  function MemberSection(members: seq<TypeInfo>): seq<Line>
  {
    if members == [] then [] else [Heading(2, "Union Member Types")] + MemberBlocks(members)
  }

  /** The lines of `unions/<name>.md`. */
  function UnionPage(u: UnionInfo): seq<Line>
  {
    UnionHead(u) + MemberSection(u.members)
  }

  function DirectiveLineOf(t: TypeInfo): Line
  {
    DirectiveHead(t.modulePath)
  }

  lemma {:induction false} ReadMemberBlocks(r: Reader, ms: seq<TypeInfo>)
    ensures Read(r, MemberBlocks(ms)) == if r == DirectiveReader then Map(ms, DirectiveLineOf) else []
    decreases |ms|
  {
    if ms != [] {
      var init := ms[..|ms| - 1];
      var last := ms[|ms| - 1];
      var d := Directive(Defaults(last.modulePath));
      ReadMemberBlocks(r, init);
      ReadLine(r, Blank);
      ReadDirective(r, Defaults(last.modulePath));
      ReadAppend(r, [Blank], d);
      ReadAppend(r, MemberBlocks(init), [Blank] + d);
      assert ms == init + [last];
      MapAppend(init, [last], DirectiveLineOf);
    }
  }

  lemma ReadUnionHead(r: Reader, u: UnionInfo)
    ensures Read(r, UnionHead(u))
            == Pick(r, Heading(1, u.name)) + Pick(r, Heading(2, "Union Type")) + Pick(r, DirectiveHead(u.modulePath))
  {
    ReadLines3(r, Heading(1, u.name), Blank, Heading(2, "Union Type"));
    ReadDirective(r, Defaults(u.modulePath));
    ReadLine(r, Blank);
    ReadThree(r, [Heading(1, u.name), Blank, Heading(2, "Union Type")], Directive(Defaults(u.modulePath)), [Blank]);
  }

  /** What each reader picks out of a union page's head. */
  lemma UnionHeadRead(u: UnionInfo)
    ensures Headings(UnionHead(u)) == [Heading(1, u.name), Heading(2, "Union Type")]
    ensures Links(UnionHead(u)) == []
    ensures Directives(UnionHead(u)) == [DirectiveHead(u.modulePath)]
  {
    ReadUnionHead(HeadingReader, u);
    ReadUnionHead(LinkReader, u);
    ReadUnionHead(DirectiveReader, u);
  }

  lemma ReadMemberSection(r: Reader, members: seq<TypeInfo>)
    ensures Read(r, MemberSection(members))
            == if members == [] then [] else Pick(r, Heading(2, "Union Member Types")) + Read(r, MemberBlocks(members))
  {
    if members != [] {
      ReadLine(r, Heading(2, "Union Member Types"));
      ReadAppend(r, [Heading(2, "Union Member Types")], MemberBlocks(members));
    }
  }

  /** What each reader picks out of a union page's member section. */
  lemma MemberSectionRead(members: seq<TypeInfo>)
    ensures Headings(MemberSection(members)) == if members != [] then [Heading(2, "Union Member Types")] else []
    ensures Links(MemberSection(members)) == []
    ensures Directives(MemberSection(members)) == Map(members, DirectiveLineOf)
  {
    ReadMemberSection(HeadingReader, members);
    ReadMemberBlocks(HeadingReader, members);
    ReadMemberSection(LinkReader, members);
    ReadMemberBlocks(LinkReader, members);
    ReadMemberSection(DirectiveReader, members);
    ReadMemberBlocks(DirectiveReader, members);
  }

  /** A union page has a "Union Member Types" section exactly when the union
      has members, and documents the union and then each member, in order. */
  lemma UnionPageContents(u: UnionInfo)
    ensures Headings(UnionPage(u)) ==
      [Heading(1, u.name), Heading(2, "Union Type")] + (if u.members != [] then [Heading(2, "Union Member Types")] else [])
    ensures Links(UnionPage(u)) == []
    ensures Directives(UnionPage(u)) == [DirectiveHead(u.modulePath)] + Map(u.members, DirectiveLineOf)
  {
    UnionHeadRead(u);
    MemberSectionRead(u.members);
    ComposeTwo(HeadingReader, UnionHead(u), MemberSection(u.members),
      [Heading(1, u.name), Heading(2, "Union Type")],
      if u.members != [] then [Heading(2, "Union Member Types")] else []);
    ComposeTwo(LinkReader, UnionHead(u), MemberSection(u.members), [], []);
    ComposeTwo(DirectiveReader, UnionHead(u), MemberSection(u.members),
      [DirectiveHead(u.modulePath)], Map(u.members, DirectiveLineOf));
  }
}
