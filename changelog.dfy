/** `scripts/changelog/new-release.py`: a release gathers the change entries
    of a package's `.changes/next-release` directory into one version file,
    `.changes/<version>.json`, ordered by change type, and then removes the
    JSON files of the next-release directory. */
module Changelog {
  import opened Wrappers
  import opened Seqs
  import opened Text
  import Ranks

  /** A document as `json.load` returns it. Numbers are integers here. */
  datatype Json =
    | Null
    | Bool(b: bool)
    | Number(n: int)
    | Str(s: string)
    | Array(items: seq<Json>)
    | Object(fields: map<string, Json>)

  /** Python's truth value of a decoded document. */
  predicate Truthy(v: Json)
  {
    match v
    case Null => false
    case Bool(b) => b
    case Number(n) => n != 0
    case Str(s) => s != []
    case Array(items) => items != []
    case Object(fields) => fields != map[]
  }

  /** A change entry: the object held by one entry file. */
  type Change = map<string, Json>

  /** CHANGE_TYPES_ORDER: every change type with its rank. */
  const ChangeTypesOrder: map<string, nat> := map[
    "breaking" := 0,
    "api-change" := 1,
    "feature" := 2,
    "enhancement" := 3,
    "bugfix" := 4,
    "dependency" := 5
  ]

  /** CHANGE_TYPES: the keys of CHANGE_TYPES_ORDER in insertion order. */
  const ChangeTypes: seq<string> := ["breaking", "api-change", "feature", "enhancement", "bugfix", "dependency"]

  const RankCount: nat := 6

  /** The two constants agree: the types are the keys of the order, and the
      rank of a type is its position in CHANGE_TYPES. */
  lemma ChangeTypesRanked()
    ensures |ChangeTypes| == RankCount
    ensures forall t :: t in ChangeTypesOrder <==> t in ChangeTypes
    ensures forall i :: 0 <= i < RankCount ==> ChangeTypesOrder[ChangeTypes[i]] == i
  {
  }

  /** `validate_change_entry`: the `type` field is one of the change types
      and the `description` field is present and truthy. */
  predicate ValidChangeEntry(c: Change)
  {
    && "type" in c && c["type"].Str? && c["type"].s in ChangeTypes
    && "description" in c && Truthy(c["description"])
  }

  /** The sort key `CHANGE_TYPES_ORDER[c["type"]]`. An entry without a valid
      type, which validation keeps out of every sort, ranks past the end. */
  function RankOf(c: Change): nat
  {
    if "type" in c && c["type"].Str? && c["type"].s in ChangeTypesOrder then ChangeTypesOrder[c["type"].s]
    else RankCount
  }

  /** An entry validates exactly when its type has a rank and its
      description is truthy, and the rank names its type; so the sort never
      meets a missing key. */
  lemma ValidChangeEntryRank(c: Change)
    ensures ValidChangeEntry(c) <==> RankOf(c) < RankCount && "description" in c && Truthy(c["description"])
    ensures RankOf(c) < RankCount ==> c["type"] == Str(ChangeTypes[RankOf(c)])
  {
    ChangeTypesRanked();
    if RankOf(c) < RankCount {
      var i := RankOf(c);
      assert ChangeTypesOrder[ChangeTypes[i]] == i;
      assert c["type"].s in ChangeTypes;
    }
  }

  /** `changes.sort(key=lambda c: CHANGE_TYPES_ORDER[c["type"]])`. */
  function SortByRank(cs: seq<Change>): seq<Change>
  {
    Ranks.StableSortBy(cs, RankOf, RankCount)
  }

  /** Sorting valid entries orders them by change type, breaking first and
      dependency last; it loses and adds no entry; and the entries of one
      change type keep their order. */
  lemma SortByRankOrders(cs: seq<Change>)
    requires forall c :: c in cs ==> ValidChangeEntry(c)
    ensures Ranks.SortedByRank(SortByRank(cs), RankOf)
    ensures multiset(SortByRank(cs)) == multiset(cs)
    ensures forall t :: 0 <= t < RankCount ==> Ranks.OfRank(SortByRank(cs), RankOf, t) == Ranks.OfRank(cs, RankOf, t)
  {
    forall c | c in cs
      ensures RankOf(c) < RankCount
    {
      ValidChangeEntryRank(c);
    }
    Ranks.StableSortSorts(cs, RankOf, RankCount);
    forall t | 0 <= t < RankCount
      ensures Ranks.OfRank(SortByRank(cs), RankOf, t) == Ranks.OfRank(cs, RankOf, t)
    {
      Ranks.StableSortKeepsOrder(cs, RankOf, RankCount, t);
    }
  }

  /** `str.rfind`: the index of the last `c` in `s`, or -1. */
  function LastIndexOf(s: string, c: char): (i: int)
    ensures -1 <= i < |s|
    ensures i >= 0 ==> s[i] == c
    ensures forall k :: i < k < |s| ==> s[k] != c
    decreases |s|
  {
    if s == [] then -1
    else if s[|s| - 1] == c then |s| - 1
    else LastIndexOf(s[..|s| - 1], c)
  }

  /** `PurePath.suffix`: the name from its last dot on, when that dot is
      neither its first nor its last character; empty otherwise. */
  function Suffix(name: string): string
  {
    var i := LastIndexOf(name, '.');
    if 0 < i < |name| - 1 then name[i..] else ""
  }

  /** A name has the suffix `.json` exactly when it is a non-empty stem
      followed by `.json`; `.json` alone has no suffix. */
  lemma JsonSuffix(name: string)
    ensures Suffix(name) == ".json" <==> |name| > 5 && name[|name| - 5..] == ".json"
  {
    var i := LastIndexOf(name, '.');
    if |name| > 5 && name[|name| - 5..] == ".json" {
      var n := |name|;
      assert name[n - 5] == '.' && name[n - 4] == 'j' && name[n - 3] == 's' && name[n - 2] == 'o' && name[n - 1] == 'n';
      assert i == n - 5;
    }
  }

  /** An entry of the next-release directory: its name, whether it is a
      regular file, and what `json.load` makes of it, None when it cannot be
      opened (a directory, say) or does not hold valid JSON. */
  datatype Entry = Entry(name: string, isFile: bool, content: Option<Json>)

  const SummaryName := "SUMMARY.json"

  /** `entry_file.is_file() and entry_file.suffix == ".json"`. */
  predicate IsJsonFile(e: Entry)
  {
    e.isFile && Suffix(e.name) == ".json"
  }

  /** The entries collected as changes: JSON files other than SUMMARY.json. */
  predicate IsChangeEntry(e: Entry)
  {
    e.name != SummaryName && IsJsonFile(e)
  }

  /** The entries a cleanup leaves in place. */
  predicate Kept(e: Entry)
  {
    !IsJsonFile(e)
  }

  /** An entry the cleanup tries to remove but whose `unlink` raises:
      `stuck` names the files that cannot be removed. */
  predicate Blocks(e: Entry, stuck: set<string>)
  {
    IsJsonFile(e) && e.name in stuck
  }

  /** The position, from `i` on, of the first entry the cleanup cannot
      remove; the length of the listing when there is none. */
  function StuckFrom(listing: seq<Entry>, stuck: set<string>, i: nat): (k: nat)
    requires i <= |listing|
    ensures i <= k <= |listing|
    ensures forall j :: i <= j < k ==> !Blocks(listing[j], stuck)
    ensures k < |listing| ==> Blocks(listing[k], stuck)
    decreases |listing| - i
  {
    if i == |listing| || Blocks(listing[i], stuck) then i else StuckFrom(listing, stuck, i + 1)
  }

  /** next-release after `cleanup_next_release_dir`: the JSON files before
      the first one that cannot be removed are gone, the rest is as it was. */
  function AfterCleanup(listing: seq<Entry>, stuck: set<string>): seq<Entry>
  {
    var k := StuckFrom(listing, stuck, 0);
    Filter(listing[..k], Kept) + listing[k..]
  }

  /** What `cleanup_next_release_dir` returns: the number of files removed,
      or the OSError of the first file it cannot remove. */
  function CleanupOutcome(listing: seq<Entry>, stuck: set<string>): Result<nat, ReleaseError>
  {
    var k := StuckFrom(listing, stuck, 0);
    if k == |listing| then Success(|Filter(listing, IsJsonFile)|) else Failure(RemoveFailed(listing[k].name))
  }

  /** The cleanup stops at the first entry it cannot remove. */
  lemma CleanupStopsAt(listing: seq<Entry>, stuck: set<string>, i: nat)
    requires i < |listing| && Blocks(listing[i], stuck)
    requires forall j :: 0 <= j < i ==> !Blocks(listing[j], stuck)
    ensures AfterCleanup(listing, stuck) == Filter(listing[..i], Kept) + listing[i..]
    ensures CleanupOutcome(listing, stuck) == Failure(RemoveFailed(listing[i].name))
  {
  }

  /** The cleanup succeeds exactly when it can remove every JSON file, and
      then it leaves only the entries that are not JSON files. */
  lemma CleanupCompletes(listing: seq<Entry>, stuck: set<string>)
    ensures CleanupOutcome(listing, stuck).Success? <==> forall j :: 0 <= j < |listing| ==> !Blocks(listing[j], stuck)
    ensures CleanupOutcome(listing, stuck).Success? ==>
              && CleanupOutcome(listing, stuck).value == |Filter(listing, IsJsonFile)|
              && AfterCleanup(listing, stuck) == Filter(listing, Kept)
  {
    var k := StuckFrom(listing, stuck, 0);
    assert listing[..|listing|] == listing;
    if k < |listing| {
      assert Blocks(listing[k], stuck);
    }
  }

  /** Why a release stops. Every one of them ends the script with status 1. */
  datatype ReleaseError =
    | BadVersion                    // the version is not `x.y.z`
    | NoChangesDir                  // the package has no `.changes` directory
    | UnreadableEntry(name: string) // an entry raises OSError or JSONDecodeError
    | InvalidEntry(name: string)    // an entry fails validation (or is no object)
    | MalformedSummary              // SUMMARY.json holds no object: it has no `get`
    | NoEntries                     // there is no change to release
    | VersionExists(file: string)   // the version file is already there
    | WriteFailed(file: string)     // writing the version file raises
    | RemoveFailed(name: string)    // `unlink` of an entry raises OSError, which nothing catches

  /** What one change entry contributes, or why it stops the run. A document
      other than an object stops it too: validation then finds no `type`,
      or the `in` test or the `["type"]` lookup raises `TypeError`. */
  function EntryChange(e: Entry): Result<Change, ReleaseError>
  {
    match e.content
    case None => Failure(UnreadableEntry(e.name))
    case Some(v) =>
      if v.Object? && ValidChangeEntry(v.fields) then Success(v.fields) else Failure(InvalidEntry(e.name))
  }

  /** The object of an entry file; empty for anything else. */
  function FieldsOf(e: Entry): Change
  {
    if e.content.Some? && e.content.value.Object? then e.content.value.fields else map[]
  }

  /** The loop of `collect_next_release_changes` over a listing, before the
      sort: change entries are appended in listing order, and the first one
      that cannot be read or does not validate stops the run. */
  function Collected(entries: seq<Entry>): Result<seq<Change>, ReleaseError>
    decreases |entries|
  {
    if entries == [] then Success([])
    else
      var r := Collected(entries[..|entries| - 1]);
      var e := entries[|entries| - 1];
      if r.Failure? || !IsChangeEntry(e) then r
      else match EntryChange(e)
        case Failure(err) => Failure(err)
        case Success(c) => Success(r.value + [c])
  }

  /** `collect_next_release_changes`: no changes when the directory is
      missing, otherwise the collected changes sorted by change type. */
  function Collect(listing: Option<seq<Entry>>): Result<seq<Change>, ReleaseError>
  {
    if listing.None? then Success([])
    else match Collected(listing.value)
      case Failure(err) => Failure(err)
      case Success(cs) => Success(SortByRank(cs))
  }

  /** The loop succeeds exactly when every change entry of the listing reads
      and validates, and then it holds their objects in listing order. */
  lemma {:induction false} CollectedSuccess(entries: seq<Entry>)
    ensures Collected(entries).Success? <==> forall e :: e in entries && IsChangeEntry(e) ==> EntryChange(e).Success?
    ensures Collected(entries).Success? ==> Collected(entries).value == Map(Filter(entries, IsChangeEntry), FieldsOf)
    decreases |entries|
  {
    if entries != [] {
      var init, e := entries[..|entries| - 1], entries[|entries| - 1];
      assert entries == init + [e];
      CollectedSuccess(init);
      FilterSnoc(init, e, IsChangeEntry);
      MapAppend(Filter(init, IsChangeEntry), if IsChangeEntry(e) then [e] else [], FieldsOf);
    }
  }

  /** `entries[i]` is a change entry that does not read or validate, with
      error `err`, and every change entry before it does. */
  predicate FirstBadAt(entries: seq<Entry>, i: int, err: ReleaseError)
  {
    && 0 <= i < |entries| && IsChangeEntry(entries[i]) && EntryChange(entries[i]) == Failure(err)
    && forall k :: 0 <= k < i && IsChangeEntry(entries[k]) ==> EntryChange(entries[k]).Success?
  }

  lemma FirstBadInPrefix(entries: seq<Entry>, i: int, err: ReleaseError)
    requires entries != [] && FirstBadAt(entries[..|entries| - 1], i, err)
    ensures FirstBadAt(entries, i, err)
  {
    var init := entries[..|entries| - 1];
    assert forall k :: 0 <= k <= i ==> entries[k] == init[k];
  }

  /** When the loop fails, it fails on the first change entry that does not
      read or validate, with that entry's error. */
  lemma {:induction false} CollectedFailure(entries: seq<Entry>)
    requires Collected(entries).Failure?
    ensures exists i :: FirstBadAt(entries, i, Collected(entries).error)
    decreases |entries|
  {
    var init := entries[..|entries| - 1];
    var n := |entries| - 1;
    if Collected(init).Failure? {
      CollectedFailure(init);
      var i :| FirstBadAt(init, i, Collected(init).error);
      FirstBadInPrefix(entries, i, Collected(init).error);
    } else {
      CollectedSuccess(init);
      forall k | 0 <= k < n && IsChangeEntry(entries[k])
        ensures EntryChange(entries[k]).Success?
      {
        assert entries[k] == init[k] && init[k] in init;
      }
      assert FirstBadAt(entries, n, Collected(entries).error);
    }
  }

  /** A failure stops the loop: once a prefix fails, the whole listing fails
      the same way. */
  lemma {:induction false} FailureStops(entries: seq<Entry>, i: nat)
    requires i <= |entries|
    requires Collected(entries[..i]).Failure?
    ensures Collected(entries) == Collected(entries[..i])
    decreases |entries|
  {
    if i < |entries| {
      var init := entries[..|entries| - 1];
      assert init[..i] == entries[..i];
      FailureStops(init, i);
    } else {
      assert entries[..i] == entries;
    }
  }

  /** One step of the loop: the entry at `i` is skipped, stops the run, or
      is appended. */
  lemma CollectedStep(entries: seq<Entry>, i: nat)
    requires i < |entries| && Collected(entries[..i]).Success?
    ensures !IsChangeEntry(entries[i]) ==> Collected(entries[..i + 1]) == Collected(entries[..i])
    ensures IsChangeEntry(entries[i]) && EntryChange(entries[i]).Failure? ==>
              Collected(entries[..i + 1]) == Failure(EntryChange(entries[i]).error)
    ensures IsChangeEntry(entries[i]) && EntryChange(entries[i]).Success? ==>
              Collected(entries[..i + 1]) == Success(Collected(entries[..i]).value + [EntryChange(entries[i]).value])
  {
    var prefix := entries[..i + 1];
    assert prefix[..i] == entries[..i] && prefix[i] == entries[i];
  }

  /** `collect_next_release_changes`, with `sys.exit(1)` as a Failure. */
  method CollectNextReleaseChanges(listing: Option<seq<Entry>>) returns (r: Result<seq<Change>, ReleaseError>)
    ensures r == Collect(listing)
  {
    if listing.None? {
      return Success([]);
    }
    var entries := listing.value;
    var changes: seq<Change> := [];
    for i := 0 to |entries|
      invariant Collected(entries[..i]) == Success(changes)
    {
      var e := entries[i];
      CollectedStep(entries, i);
      if e.name != SummaryName && e.isFile && Suffix(e.name) == ".json" {
        if e.content.None? {
          FailureStops(entries, i + 1);
          return Failure(UnreadableEntry(e.name));
        }
        var data := e.content.value;
        if !(data.Object? && ValidChangeEntry(data.fields)) {
          FailureStops(entries, i + 1);
          return Failure(InvalidEntry(e.name));
        }
        changes := changes + [data.fields];
      }
    }
    assert entries[..|entries|] == entries;
    changes := SortByRank(changes);
    return Success(changes);
  }

  /** What a release collects: valid entries only, exactly the change
      entries of the listing (the JSON files other than SUMMARY.json), ordered
      by change type, the entries of one type in listing order. */
  lemma CollectOrders(listing: seq<Entry>)
    requires Collect(Some(listing)).Success?
    ensures var cs := Collect(Some(listing)).value;
            var found := Map(Filter(listing, IsChangeEntry), FieldsOf);
            && (forall c :: c in cs ==> ValidChangeEntry(c))
            && multiset(cs) == multiset(found)
            && Ranks.SortedByRank(cs, RankOf)
            && forall t :: 0 <= t < RankCount ==> Ranks.OfRank(cs, RankOf, t) == Ranks.OfRank(found, RankOf, t)
  {
    var found := Map(Filter(listing, IsChangeEntry), FieldsOf);
    assert Collected(listing) == Success(found) && forall c :: c in found ==> ValidChangeEntry(c) by {
      CollectedValid(listing);
    }
    var cs := SortByRank(found);
    assert multiset(cs) == multiset(found)
           && Ranks.SortedByRank(cs, RankOf)
           && forall t :: 0 <= t < RankCount ==> Ranks.OfRank(cs, RankOf, t) == Ranks.OfRank(found, RankOf, t) by {
      SortByRankOrders(found);
    }
    forall c | c in cs
      ensures ValidChangeEntry(c)
    {
      assert c in multiset(cs);
    }
  }

  /** A successful loop holds the objects of the change entries, and every
      one of them is valid. */
  lemma CollectedValid(listing: seq<Entry>)
    requires Collected(listing).Success?
    ensures Collected(listing) == Success(Map(Filter(listing, IsChangeEntry), FieldsOf))
    ensures forall c :: c in Map(Filter(listing, IsChangeEntry), FieldsOf) ==> ValidChangeEntry(c)
  {
    CollectedSuccess(listing);
    var changes := Filter(listing, IsChangeEntry);
    forall c | c in Map(changes, FieldsOf)
      ensures ValidChangeEntry(c)
    {
      var j :| 0 <= j < |changes| && FieldsOf(changes[j]) == c;
      assert changes[j] in listing && IsChangeEntry(changes[j]);
    }
  }

  /** The entry of the listing with the given name, if any. */
  function Find(entries: seq<Entry>, name: string): (r: Option<Entry>)
    ensures r.Some? ==> r.value in entries && r.value.name == name
    ensures r.None? ==> forall e :: e in entries ==> e.name != name
  {
    if entries == [] then None
    else if entries[0].name == name then Some(entries[0])
    else Find(entries[1..], name)
  }

  /** `collect_next_release_summary`: the `summary` field of SUMMARY.json;
      None when the directory or the file is missing, when it cannot be
      opened or decoded, or when it has no such field. A document other than
      an object has no `get`, and the run stops. */
  function CollectSummary(listing: Option<seq<Entry>>): Result<Option<Json>, ReleaseError>
  {
    if listing.None? then Success(None)
    else match Find(listing.value, SummaryName)
      case None => Success(None)
      case Some(e) =>
        if !e.isFile || e.content.None? then Success(None)
        else if !e.content.value.Object? then Failure(MalformedSummary)
        else
          var fields := e.content.value.fields;
          Success(if "summary" in fields then Some(fields["summary"]) else None)
  }

  function ChangeJson(c: Change): Json
  {
    Object(c)
  }

  /** The record `create_version_file` writes: the changes in order, and the
      summary only when it is truthy. */
  function VersionData(changes: seq<Change>, summary: Option<Json>): Json
  {
    var data := map["changes" := Array(Map(changes, ChangeJson))];
    Object(if summary.Some? && Truthy(summary.value) then data["summary" := summary.value] else data)
  }

  /** The changes a version record lists, when it is an object whose
      `changes` field is an array of objects. */
  function ChangesOf(v: Json): Option<seq<Change>>
  {
    if v.Object? && "changes" in v.fields && v.fields["changes"].Array?
       && forall i :: 0 <= i < |v.fields["changes"].items| ==> v.fields["changes"].items[i].Object?
    then
      var items := v.fields["changes"].items;
      Some(seq(|items|, i requires 0 <= i < |items| && items[i].Object? => items[i].fields))
    else None
  }

  /** The `summary` field of a version record, if any. */
  function SummaryOf(v: Json): Option<Json>
  {
    if v.Object? && "summary" in v.fields then Some(v.fields["summary"]) else None
  }

  /** Reading a version record back gives the released changes, in the
      order they were written, and the summary exactly when it was truthy;
      the record has no other field. */
  lemma VersionDataReadsBack(changes: seq<Change>, summary: Option<Json>)
    ensures ChangesOf(VersionData(changes, summary)) == Some(changes)
    ensures SummaryOf(VersionData(changes, summary)) == if summary.Some? && Truthy(summary.value) then summary else None
    ensures VersionData(changes, summary).fields.Keys <= {"changes", "summary"}
  {
    var v := VersionData(changes, summary);
    var items := Map(changes, ChangeJson);
    assert v.fields["changes"] == Array(items);
    assert forall i :: 0 <= i < |items| ==> items[i].Object? && items[i].fields == changes[i];
    var got := seq(|items|, i requires 0 <= i < |items| && items[i].Object? => items[i].fields);
    assert got == changes;
  }

  /** The file name `<version>.json`. */
  function VersionFile(version: string): string
  {
    version + ".json"
  }

  predicate Digits(s: string)
  {
    s != [] && forall k :: 0 <= k < |s| ==> '0' <= s[k] <= '9'
  }

  /** A full match of `\d+\.\d+\.\d+`: three runs of digits split by dots. */
  predicate IsVersion(v: string)
  {
    var parts := Split(v, '.');
    |parts| == 3 && Digits(parts[0]) && Digits(parts[1]) && Digits(parts[2])
  }

  /** `re.match(VERSION_PATTERN, v)` as written: `$` matches at the end of
      the text and also just before a newline that ends it. */
  predicate MatchesVersionPattern(v: string)
  {
    IsVersion(v) || (v != [] && v[|v| - 1] == '\n' && IsVersion(v[..|v| - 1]))
  }

  /** The pattern as written accepts a version followed by a newline, which
      then becomes part of the version file's name. */
  lemma TrailingNewlineAccepted()
    ensures MatchesVersionPattern("1.2.3\n")
    ensures !IsVersion("1.2.3\n")
    ensures '\n' in VersionFile("1.2.3\n")
  {
    SplitVersion("1", "2", "3");
    assert "1.2.3\n"[..5] == "1" + "." + "2" + "." + "3";
    SplitVersion("1", "2", "3\n");
    assert "1.2.3\n" == "1" + "." + "2" + "." + "3\n";
    assert VersionFile("1.2.3\n")[5] == '\n';
  }

  /** Over every input, the pattern as written accepts exactly the versions
      and the versions followed by one newline; for the latter, the newline
      reaches the version file's name. */
  lemma PatternAcceptsNewline(v: string)
    ensures (MatchesVersionPattern(v) && !IsVersion(v)) <==> (exists w :: IsVersion(w) && v == w + "\n")
    ensures MatchesVersionPattern(v) ==> ('\n' in VersionFile(v) <==> !IsVersion(v))
  {
    if IsVersion(v) {
      VersionCharacters(v);
      forall w | IsVersion(w)
        ensures v != w + "\n"
      {
        assert (w + "\n")[|w|] == '\n';
      }
    } else if MatchesVersionPattern(v) {
      var w := v[..|v| - 1];
      assert v == w + "\n";
      assert VersionFile(v)[|v| - 1] == '\n';
    } else {
      forall w | IsVersion(w)
        ensures v != w + "\n"
      {
        assert (w + "\n")[..|w|] == w;
      }
    }
  }

  /** Three dot-free pieces joined by dots split back into those pieces. */
  lemma SplitVersion(a: string, b: string, c: string)
    requires '.' !in a && '.' !in b && '.' !in c
    ensures Split(a + "." + b + "." + c, '.') == [a, b, c]
  {
    var bc := b + ['.'] + c;
    calc {
      Split(a + "." + b + "." + c, '.');
      { assert a + "." + b + "." + c == a + ['.'] + bc; }
      Split(a + ['.'] + bc, '.');
      { SplitAfter(a, '.', bc); }
      [a] + Split(bc, '.');
      { SplitAfter(b, '.', c); SplitNone(c, '.'); }
      [a] + ([b] + [c]);
    }
  }

  function FormatVersion(major: nat, minor: nat, patch: nat): string
  {
    NatToString(major) + "." + NatToString(minor) + "." + NatToString(patch)
  }

  function ParseVersion(v: string): (nat, nat, nat)
    requires IsVersion(v)
  {
    var parts := Split(v, '.');
    (ParseNat(parts[0]), ParseNat(parts[1]), ParseNat(parts[2]))
  }

  /** Every `major.minor.patch` written in decimal is a version, and it
      reads back as the same three numbers. */
  lemma VersionRoundTrip(major: nat, minor: nat, patch: nat)
    ensures IsVersion(FormatVersion(major, minor, patch))
    ensures ParseVersion(FormatVersion(major, minor, patch)) == (major, minor, patch)
  {
    var a, b, c := NatToString(major), NatToString(minor), NatToString(patch);
    assert '.' !in a && '.' !in b && '.' !in c by {
      assert forall k :: 0 <= k < |a| ==> a[k] != '.';
      assert forall k :: 0 <= k < |b| ==> b[k] != '.';
      assert forall k :: 0 <= k < |c| ==> c[k] != '.';
    }
    SplitVersion(a, b, c);
    ParseNatToString(major);
    ParseNatToString(minor);
    ParseNatToString(patch);
  }

  /** A version holds only digits and dots, so no newline reaches the
      version file's name. */
  lemma VersionCharacters(v: string)
    requires IsVersion(v)
    ensures forall k :: 0 <= k < |v| ==> v[k] == '.' || '0' <= v[k] <= '9'
    ensures '\n' !in VersionFile(v)
  {
    var parts := Split(v, '.');
    JoinSplit(v, '.');
    forall k | 0 <= k < |v|
      ensures v[k] == '.' || '0' <= v[k] <= '9'
    {
      var ch := v[k];
      JoinElements(parts, ['.'], ch);
      if ch != '.' {
        var i :| 0 <= i < |parts| && ch in parts[i];
        var j :| 0 <= j < |parts[i]| && parts[i][j] == ch;
      }
    }
  }

  /** A release with no changes left in next-release: the JSON files are all
      gone, so the next run finds no change and no summary. */
  lemma CleanupEmptiesNextRelease(entries: seq<Entry>)
    ensures Collect(Some(Filter(entries, Kept))) == Success([])
    ensures CollectSummary(Some(Filter(entries, Kept))) == Success(None)
  {
    var rest := Filter(entries, Kept);
    assert Collected(rest) == Success([]) by {
      assert forall i :: 0 <= i < |rest| ==> !IsChangeEntry(rest[i]);
      CollectedSuccess(rest);
      FilterNone(rest, IsChangeEntry);
    }
    assert SortByRank([]) == [] by {
      Ranks.StableSortSorts([], RankOf, RankCount);
    }
    var found := Find(rest, SummaryName);
    if found.Some? {
      var e := found.value;
      var j :| 0 <= j < |rest| && rest[j] == e;
      assert Kept(e);
      assert Suffix(e.name) == ".json" by {
        JsonSuffix(SummaryName);
      }
    }
  }

  /** What `create_new_release` has gathered once it has read next-release:
      the summary, then the changes; no change at all stops it. */
  function Pending(listing: Option<seq<Entry>>): Result<(Option<Json>, seq<Change>), ReleaseError>
  {
    var summary :- CollectSummary(listing);
    var changes :- Collect(listing);
    if changes == [] then Failure(NoEntries) else Success((summary, changes))
  }

  /** How a run ends when it does not stop with an error. */
  datatype Release =
    | DryRun(summary: Option<Json>, changes: seq<Change>)
    | Released(file: string, removed: nat)

  /** The exit status of the script. */
  function ExitCode(r: Result<Release, ReleaseError>): int
  {
    if r.Success? then 0 else 1
  }

  /** A package's `.changes` directory. */
  class ChangesDir {
    /** Whether `.changes` exists at all. */
    const present: bool
    /** The version files `.changes` holds, by file name. */
    var versions: map<string, Json>
    /** Whether `.changes/next-release` exists. */
    const hasNextRelease: bool
    /** The entries of `.changes/next-release`, in listing order. */
    var entries: seq<Entry>
    /** The version file names whose opening for writing raises OSError. */
    const unwritable: set<string>
    /** The next-release entry names whose `unlink` raises OSError. */
    const stuck: set<string>

    constructor (present: bool, versions: map<string, Json>, hasNextRelease: bool, entries: seq<Entry>,
                 unwritable: set<string>, stuck: set<string>)
      ensures this.present == present && this.versions == versions
      ensures this.hasNextRelease == hasNextRelease && this.entries == entries
      ensures this.unwritable == unwritable && this.stuck == stuck
    {
      this.stuck := stuck;
      this.present := present;
      this.versions := versions;
      this.hasNextRelease := hasNextRelease;
      this.entries := entries;
      this.unwritable := unwritable;
    }

    /** The listing of next-release, None when it is missing. */
    function NextRelease(): Option<seq<Entry>>
      reads this
    {
      if hasNextRelease then Some(entries) else None
    }

    /** `create_version_file`: refuses when `<version>.json` exists, and
        otherwise writes the changes, and the summary when it is truthy. */
    method CreateVersionFile(version: string, changes: seq<Change>, summary: Option<Json>) returns (r: Result<string, ReleaseError>)
      modifies this
      ensures entries == old(entries)
      ensures VersionFile(version) in old(versions) ==>
                r == Failure(VersionExists(VersionFile(version))) && versions == old(versions)
      ensures VersionFile(version) !in old(versions) && VersionFile(version) in unwritable ==>
                r == Failure(WriteFailed(VersionFile(version))) && versions == old(versions)
      ensures VersionFile(version) !in old(versions) && VersionFile(version) !in unwritable ==>
                r == Success(VersionFile(version))
                && versions == old(versions)[VersionFile(version) := VersionData(changes, summary)]
    {
      var file := VersionFile(version);
      if file in versions {
        return Failure(VersionExists(file));
      }
      var data := map["changes" := Array(Map(changes, ChangeJson))];
      if summary.Some? && Truthy(summary.value) {
        data := data["summary" := summary.value];
      }
      if file in unwritable {
        return Failure(WriteFailed(file));
      }
      versions := versions[file := Object(data)];
      return Success(file);
    }

    /** `unlink` of the entry at position `pos` of the listing: it raises
        OSError, and removes nothing, when the entry is one of `stuck`. */
    method Unlink(pos: nat) returns (ok: bool)
      requires pos < |entries|
      modifies this
      ensures ok <==> old(entries[pos].name) !in stuck
      ensures ok ==> entries == old(entries[..pos] + entries[pos + 1..])
      ensures !ok ==> entries == old(entries)
      ensures versions == old(versions)
    {
      ok := entries[pos].name !in stuck;
      if ok {
        entries := entries[..pos] + entries[pos + 1..];
      }
    }

    /** `cleanup_next_release_dir`: removes every JSON file, SUMMARY.json
        included, keeps everything else in its order, and counts the removed
        files. The first `unlink` that raises ends it, with the files before
        it removed and the rest still there. */
    method CleanupNextReleaseDir() returns (r: Result<nat, ReleaseError>)
      modifies this
      ensures entries == AfterCleanup(old(entries), stuck)
      ensures r == CleanupOutcome(old(entries), stuck)
      ensures versions == old(versions)
    {
      var listing := entries;
      var removed := 0;
      var pos := 0;
      for i := 0 to |listing|
        invariant entries == Filter(listing[..i], Kept) + listing[i..]
        invariant pos == |Filter(listing[..i], Kept)|
        invariant removed + pos == i
        invariant forall j :: 0 <= j < i ==> !Blocks(listing[j], stuck)
        invariant versions == old(versions)
      {
        RemoveStep(listing, i, Kept, entries, pos);
        if IsJsonFile(listing[i]) {
          var ok := Unlink(pos);
          if !ok {
            CleanupStopsAt(listing, stuck, i);
            return Failure(RemoveFailed(listing[i].name));
          }
          removed := removed + 1;
        } else {
          pos := pos + 1;
        }
      }
      assert listing[..|listing|] == listing;
      FilterPartition(listing, Kept, IsJsonFile);
      CleanupCompletes(listing, stuck);
      r := Success(removed);
    }

    /** The run goes as far as writing the version file. */
    predicate Releases(version: string, dryRun: bool)
      reads this
    {
      && present && Pending(NextRelease()).Success? && !dryRun
      && VersionFile(version) !in versions && VersionFile(version) !in unwritable
    }

    /** `create_new_release`. It stops when `.changes` is missing, when
        SUMMARY.json or an entry stops the collection, and when there is no
        change; a dry run then ends without changing anything. Otherwise it
        writes the version file, stopping when that fails, and cleans
        next-release, where a failed `unlink` ends the run after the version
        file is written. */
    method CreateNewRelease(version: string, dryRun: bool) returns (r: Result<Release, ReleaseError>)
      modifies this
      ensures !present ==> r == Failure(NoChangesDir)
      ensures present && Pending(old(NextRelease())).Failure? ==> r == Failure(Pending(old(NextRelease())).error)
      ensures present && Pending(old(NextRelease())).Success? && dryRun ==>
                var (summary, changes) := Pending(old(NextRelease())).value;
                r == Success(DryRun(summary, changes))
      ensures present && Pending(old(NextRelease())).Success? && !dryRun ==>
                var file := VersionFile(version);
                var cleanup := CleanupOutcome(old(entries), stuck);
                && (file in old(versions) ==> r == Failure(VersionExists(file)))
                && (file !in old(versions) && file in unwritable ==> r == Failure(WriteFailed(file)))
                && (file !in old(versions) && file !in unwritable && cleanup.Success? ==>
                      r == Success(Released(file, cleanup.value)))
                && (file !in old(versions) && file !in unwritable && cleanup.Failure? ==>
                      r == Failure(cleanup.error))
      ensures !old(Releases(version, dryRun)) ==> versions == old(versions) && entries == old(entries)
      ensures old(Releases(version, dryRun)) ==>
                var (summary, changes) := Pending(old(NextRelease())).value;
                && versions == old(versions)[VersionFile(version) := VersionData(changes, summary)]
                && entries == AfterCleanup(old(entries), stuck)
      ensures r.Success? && !dryRun ==>
                && r.value == Released(VersionFile(version), |Filter(old(entries), IsJsonFile)|)
                && entries == Filter(old(entries), Kept)
    {
      CleanupCompletes(entries, stuck);
      if !present {
        return Failure(NoChangesDir);
      }
      var listing := NextRelease();
      var summary :- CollectSummary(listing);
      var changes :- CollectNextReleaseChanges(listing);
      if changes == [] {
        return Failure(NoEntries);
      }
      if dryRun {
        return Success(DryRun(summary, changes));
      }
      var file :- CreateVersionFile(version, changes, summary);
      var removed :- CleanupNextReleaseDir();
      return Success(Released(file, removed));
    }
  }

  /** `main` once the arguments are parsed, as written: the version is
      checked with `re.match(VERSION_PATTERN, ...)`, so a version followed by
      a newline passes and names the version file with that newline. */
  method NewReleaseAsWritten(dir: ChangesDir, version: string, dryRun: bool) returns (r: Result<Release, ReleaseError>)
    modifies dir
    ensures !MatchesVersionPattern(version) ==> r == Failure(BadVersion)
    ensures !(MatchesVersionPattern(version) && old(dir.Releases(version, dryRun))) ==>
              dir.versions == old(dir.versions) && dir.entries == old(dir.entries)
    ensures MatchesVersionPattern(version) && old(dir.Releases(version, dryRun)) ==> VersionFile(version) in dir.versions
    ensures r.Success? ==> MatchesVersionPattern(version) && dir.present
    ensures r.Success? && !dryRun ==>
              && r.value == Released(VersionFile(version), |Filter(old(dir.entries), IsJsonFile)|)
              && r.value.file in dir.versions
              && ('\n' in r.value.file <==> !IsVersion(version))
  {
    if !MatchesVersionPattern(version) {
      return Failure(BadVersion);
    }
    r := dir.CreateNewRelease(version, dryRun);
    if r.Success? && !dryRun {
      PatternAcceptsNewline(version);
    }
  }

  /** `main` with the check the pattern is meant to make, a full match of
      `x.y.z`: a malformed version stops the run before anything is read; a
      released version file is named after the version and holds no
      newline. */
  method NewRelease(dir: ChangesDir, version: string, dryRun: bool) returns (r: Result<Release, ReleaseError>)
    modifies dir
    ensures !IsVersion(version) ==> r == Failure(BadVersion)
    ensures !(IsVersion(version) && old(dir.Releases(version, dryRun))) ==>
              dir.versions == old(dir.versions) && dir.entries == old(dir.entries)
    ensures IsVersion(version) && old(dir.Releases(version, dryRun)) ==> VersionFile(version) in dir.versions
    ensures r.Success? ==> IsVersion(version) && dir.present
    ensures r.Success? && !dryRun ==>
              && r.value == Released(VersionFile(version), |Filter(old(dir.entries), IsJsonFile)|)
              && '\n' !in r.value.file && r.value.file in dir.versions
  {
    if !IsVersion(version) {
      return Failure(BadVersion);
    }
    r := dir.CreateNewRelease(version, dryRun);
    if r.Success? && !dryRun {
      VersionCharacters(version);
    }
  }
}
