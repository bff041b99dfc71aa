/** `scripts/docs/generate_nav.py`: the navigation file of the docs site,
    `docs/SUMMARY.md`, in the literate-nav format: three fixed items, then
    one nested item per client. */
module Nav {
  import opened Wrappers
  import opened Seqs
  import opened Files
  import opened Clients

  const SummaryPath := "docs/SUMMARY.md"

  const NavHeader: seq<string> := [
    "* [Overview](index.md)",
    "* [Contributing](contributing.md)",
    "* [Available Clients](clients/index.md)"
  ]

  /** A client's nested item: its display name linking to the index page of
      its docs folder. */
  function NavItem(e: DirEntry): string
  {
    var path := PathName(e.name);
    "    * [" + DisplayName(path) + "](clients/" + path + "/index.md)"
  }

  /** The nested item for a discovered client. */
  function NavEntry(c: ClientInfo): string
  {
    "    * [" + c.serviceName + "](clients/" + c.pathName + "/index.md)"
  }

  /** The lines of `docs/SUMMARY.md` for a listing of the clients directory. */
  function NavLines(listing: seq<DirEntry>): seq<string>
  {
    NavHeader + Map(ClientEntries(listing), NavItem)
  }

  /** The lines `generate_nav` builds and the number of clients it counts:
      the nested items, one per entry holding the doc script in sorted
      order, after the fixed items. */
  method BuildNavLines(listing: seq<DirEntry>) returns (lines: seq<string>, clientCount: nat)
    ensures lines == NavLines(listing)
    ensures clientCount == |ClientEntries(listing)|
  {
    var items: seq<string> := [];
    clientCount := 0;
    var entries := SortBy(listing, EntryName);
    for i := 0 to |entries|
      invariant items == Map(Filter(entries[..i], HasDocScript), NavItem)
      invariant |items| == clientCount
    {
      FilterMapSnoc(entries, i, HasDocScript, NavItem);
      if entries[i].hasDocScript {
        items := items + [NavItem(entries[i])];
        clientCount := clientCount + 1;
      }
    }
    assert entries[..|entries|] == entries;
    lines := NavHeader + items;
  }

  /** `generate_nav`. When the clients directory does not exist (`listing`
      is None) it fails before writing anything. Otherwise it lists the
      clients, in sorted order, under the three fixed items, counts them and
      writes the file; it fails when the write raises `OSError`. */
  method GenerateNav(listing: Option<seq<DirEntry>>, docs: Directory) returns (ok: bool, clientCount: nat)
    modifies docs
    ensures listing.None? ==> !ok && clientCount == 0 && docs.files == old(docs.files)
    ensures listing.Some? ==> clientCount == |ClientEntries(listing.value)|
    ensures listing.Some? ==> ok == (SummaryPath !in docs.unwritable)
    ensures listing.Some? ==> docs.files == if ok then old(docs.files)[SummaryPath := LinesText(NavLines(listing.value))]
                                            else old(docs.files)
  {
    if listing.None? {
      return false, 0;
    }
    var lines;
    lines, clientCount := BuildNavLines(listing.value);
    ok := docs.Write(SummaryPath, LinesText(lines));
  }

  /** The navigation follows the client discovery of the doc-stub scripts:
      after the three fixed items comes one item per discovered client, in
      the same order, showing its service name and linking to
      `clients/<path name>/index.md`, which is where that client's
      generator writes its index page. */
  lemma NavFollowsDiscovery(listing: seq<DirEntry>)
    ensures NavLines(listing) == NavHeader + Map(Discovered(listing), NavEntry)
  {
    MapCompose(ClientEntries(listing), ClientOf, NavEntry, NavItem);
  }

  lemma NavHeaderOneLine()
    ensures forall i :: 0 <= i < |NavHeader| ==> '\n' !in NavHeader[i]
  {
  }

  /** A client's item is one line when its directory name is. */
  lemma NavItemOneLine(e: DirEntry)
    requires '\n' !in e.name
    ensures '\n' !in NavItem(e)
  {
    DisplayNameShape(e.name);
    forall ch | ch in PathName(e.name)
      ensures ch in e.name
    {
      Text.ReplaceAllChars(e.name, PackagePrefix, "", ch);
    }
  }

  /** The written file splits back into its lines when no client name holds
      a newline. */
  lemma SummaryFileLines(listing: seq<DirEntry>)
    requires forall e :: e in listing ==> '\n' !in e.name
    ensures Split(LinesText(NavLines(listing)), '\n') == NavLines(listing) + [""]
  {
    var entries := ClientEntries(listing);
    var items := Map(entries, NavItem);
    forall k | 0 <= k < |items|
      ensures '\n' !in items[k]
    {
      assert entries[k] in multiset(SortBy(listing, EntryName));
      NavItemOneLine(entries[k]);
    }
    NavHeaderOneLine();
    LinesOfTwo(NavHeader, items);
    LinesTextSplit(NavLines(listing));
  }

  lemma LinesOfTwo(a: seq<string>, b: seq<string>)
    requires forall i :: 0 <= i < |a| ==> '\n' !in a[i]
    requires forall i :: 0 <= i < |b| ==> '\n' !in b[i]
    ensures forall i :: 0 <= i < |a + b| ==> '\n' !in (a + b)[i]
  {
  }
}
