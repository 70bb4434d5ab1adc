/** What is saved of a turn's patch: line counts are published only where the patch is known to be whole. */
module CapturedTurnChanges {
  import opened Wrappers
  import opened DiffDocument
  import opened DiffInvariants
  import opened ParsePatch
  import opened DiffTheorems
  import opened PatchPrinter
  import opened PatchRoundTrip

  datatype CapturedFile = CapturedFile(path: string, patch: string, isBinary: bool, isPartial: bool,
                                       additions: Option<nat>, deletions: Option<nat>)

  function ShownPath(file: File): string {
    file.newPath.GetOr(file.oldPath.GetOr("Changed file"))
  }

  /** `isLast` and `isTruncated`: the host cut the patch in this file. */
  function Captured(file: File, isLast: bool, isTruncated: bool): CapturedFile {
    var partial := file.isPartial || (isTruncated && isLast);
    var known := !file.isBinary && !partial;
    CapturedFile(ShownPath(file), file.patch, file.isBinary, partial,
                 if known then Some(TotalKind(file.hunks, Addition)) else None,
                 if known then Some(TotalKind(file.hunks, Deletion)) else None)
  }

  function Capture(patch: string, isTruncated: bool, maximumLines: nat, maximumBytes: nat): (r: seq<CapturedFile>)
    ensures |r| == |Parsed(patch, maximumLines, maximumBytes).files|
  {
    var files := Parsed(patch, maximumLines, maximumBytes).files;
    seq(|files|, k requires 0 <= k < |files| => Captured(files[k], k == |files| - 1, isTruncated))
  }

  /** Published counts are right: both or neither are there, and where they are, every hunk holds exactly the lines its
      header announces and the difference of the counts is that of the headers. */
  lemma PublishedCountsAreExact(patch: string, isTruncated: bool, maximumLines: nat, maximumBytes: nat, k: nat)
    requires maximumLines > 0 && maximumBytes > 0 && k < |Capture(patch, isTruncated, maximumLines, maximumBytes)|
    ensures var files := Parsed(patch, maximumLines, maximumBytes).files;
            var file := files[k];
            var captured := Capture(patch, isTruncated, maximumLines, maximumBytes)[k];
            && captured.additions.Some? == captured.deletions.Some?
            && (captured.additions.Some? <==>
                  !file.isBinary && !file.isPartial && !(isTruncated && k == |files| - 1))
            && (captured.additions.Some? ==>
                  && (forall h :: 0 <= h < |file.hunks| ==> Exact(file.hunks[h]))
                  && captured.additions.value - captured.deletions.value == HeaderGain(file.hunks))
  {
    hide Parsed;
    CountsAreExact(patch, maximumLines, maximumBytes, k);
  }

  function CountRows(rows: seq<Row>, kind: Kind): nat {
    if rows == [] then 0 else (if rows[0].kind == kind then 1 else 0) + CountRows(rows[1..], kind)
  }

  function CountAllRows(hunks: seq<HunkSource>, kind: Kind): nat {
    if hunks == [] then 0 else CountRows(hunks[0].rows, kind) + CountAllRows(hunks[1..], kind)
  }

  lemma {:induction false} CountJoin(a: seq<Line>, b: seq<Line>, kind: Kind)
    ensures CountKind(a + b, kind) == CountKind(a, kind) + CountKind(b, kind)
  {
    if b == [] {
      assert a + b == a;
    } else {
      assert (a + b)[..|a + b| - 1] == a + b[..|b| - 1];
      CountJoin(a, b[..|b| - 1], kind);
    }
  }

  lemma {:induction false} TotalJoin(a: seq<Hunk>, b: seq<Hunk>, kind: Kind)
    ensures TotalKind(a + b, kind) == TotalKind(a, kind) + TotalKind(b, kind)
  {
    if b == [] {
      assert a + b == a;
    } else {
      assert (a + b)[..|a + b| - 1] == a + b[..|b| - 1];
      TotalJoin(a, b[..|b| - 1], kind);
    }
  }

  lemma {:induction false} ShownRowsCount(rows: seq<Row>, oldLine: int, newLine: int, id: nat, kind: Kind)
    ensures CountKind(ShownRows(rows, oldLine, newLine, id), kind) == CountRows(rows, kind)
  {
    if rows != [] {
      var first := ShownRow(rows[0], oldLine, newLine, id);
      var rest := ShownRows(rows[1..], oldLine + OnOld(rows[0]), newLine + OnNew(rows[0]), id + 1);
      ShownRowsCount(rows[1..], oldLine + OnOld(rows[0]), newLine + OnNew(rows[0]), id + 1, kind);
      CountJoin([first], rest, kind);
      assert [first][..0] == [];
    }
  }

  lemma {:induction false} ShownHunksCount(hunks: seq<HunkSource>, id: nat, kind: Kind)
    ensures TotalKind(ShownHunks(hunks, id), kind) == CountAllRows(hunks, kind)
  {
    hide HeaderText, ShownRows;
    if hunks != [] {
      var first := ShownHunk(hunks[0], id);
      ShownHunksCount(hunks[1..], id + 1 + |hunks[0].rows|, kind);
      ShownRowsCount(hunks[0].rows, hunks[0].oldRange.start, hunks[0].newRange.start, id + 1, kind);
      TotalJoin([first], ShownHunks(hunks[1..], id + 1 + |hunks[0].rows|), kind);
      assert [first][..0] == [];
    }
  }

  lemma {:induction false} ShownAt(files: seq<FileSource>, k: nat, i: nat, j: nat)
    requires AllPrintable(files) && j < |files|
    ensures |Shown(files, k, i)| == |files|
    ensures var file := Shown(files, k, i)[j];
            && file.oldPath == files[j].oldPath && file.newPath == files[j].newPath && !file.isBinary && !file.isPartial
            && exists id: nat :: file.hunks == ShownHunks(files[j].hunks, id)
  {
    hide PrintableFile, FileTexts, ShownHunks;
    ShownLength(files, k, i);
    if j == 0 {
      assert Shown(files, k, i)[0].hunks == ShownHunks(files[0].hunks, i + |files[0].extended| + 3);
    } else {
      ShownAt(files[1..], k + 1, i + |FileTexts(files[0])|, j - 1);
      assert Shown(files, k, i)[j] == Shown(files[1..], k + 1, i + |FileTexts(files[0])|)[j - 1];
    }
  }

  lemma {:induction false} ShownLength(files: seq<FileSource>, k: nat, i: nat)
    requires AllPrintable(files)
    ensures |Shown(files, k, i)| == |files|
  {
    hide PrintableFile, FileTexts, ShownFile;
    if files != [] { ShownLength(files[1..], k + 1, i + |FileTexts(files[0])|); }
  }

  /** A printed patch that is captured whole publishes, file by file, the numbers of lines it was printed with. */
  lemma CaptureOfPrint(files: seq<FileSource>, maximumLines: nat, maximumBytes: nat, k: nat)
    requires AllPrintable(files) && maximumLines > 0 && maximumBytes > 0 && k < |files|
    requires |AllTexts(files)| <= maximumLines && |Print(files)| <= maximumBytes
    ensures var captured := Capture(Print(files), false, maximumLines, maximumBytes);
            && |captured| == |files|
            && captured[k].additions == Some(CountAllRows(files[k].hunks, Addition))
            && captured[k].deletions == Some(CountAllRows(files[k].hunks, Deletion))
  {
    hide Print, AllTexts, AllPrintable, Parsed, ShownHunks, Shown;
    PrintParses(files, maximumLines, maximumBytes);
    ShownAt(files, 0, 0, k);
    var hunks := Shown(files, 0, 0)[k].hunks;
    var id: nat :| hunks == ShownHunks(files[k].hunks, id);
    ShownHunksCount(files[k].hunks, id, Addition);
    ShownHunksCount(files[k].hunks, id, Deletion);
  }
}
