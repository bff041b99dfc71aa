/** A directory the scripts write into: the text of each file under it, by
    path relative to the directory, and the paths whose writing raises
    `OSError` (a parent that cannot be created, a file that cannot be
    written). The set of unwritable paths is fixed for a run. */
module Files {
  import opened Seqs

  /** `"\n".join(lines) + "\n"`: the text of a file written line by line. */
  function LinesText(lines: seq<string>): string
  {
    Join(lines, "\n") + "\n"
  }

  /** A file written from single-line lines splits back into those lines,
      followed by the empty piece after the final newline. (With no lines
      at all the file is a lone newline, which splits into two empty
      pieces.) */
  lemma LinesTextSplit(lines: seq<string>)
    requires lines != []
    requires forall i :: 0 <= i < |lines| ==> '\n' !in lines[i]
    ensures Split(LinesText(lines), '\n') == lines + [""]
  {
    var parts := lines + [""];
    JoinSnoc(lines, "", "\n");
    assert Join(parts, "\n") == LinesText(lines);
    assert forall i :: 0 <= i < |parts| ==> '\n' !in parts[i] by {
      assert forall i :: 0 <= i < |lines| ==> parts[i] == lines[i];
    }
    SplitJoin(parts, '\n');
  }

  class Directory {
    var files: map<string, string>
    const unwritable: set<string>

    constructor(files: map<string, string>, unwritable: set<string>)
      ensures this.files == files && this.unwritable == unwritable
    {
      this.files := files;
      this.unwritable := unwritable;
    }

    /** `path.parent.mkdir(parents=True, exist_ok=True)`, when the script
        creates the parent, then `path.write_text(content)`; false when
        either raises, and then nothing changes. */
    method Write(path: string, content: string) returns (ok: bool)
      modifies this
      ensures ok == (path !in unwritable)
      ensures files == if ok then old(files)[path := content] else old(files)
    {
      if path in unwritable {
        return false;
      }
      files := files[path := content];
      return true;
    }
  }
}
