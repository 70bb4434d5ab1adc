/** Parsing undoes printing: every list of files whose hunks have exact counts comes back whole. */
module PatchRoundTrip {
  import opened Wrappers
  import opened Text
  import opened PatchHeaders
  import opened DiffDocument
  import opened PatchReader
  import opened UnifiedDiff
  import opened ParsePatch
  import opened PatchPrinter

  datatype Row = Row(kind: Kind, text: string)

  datatype HunkSource = HunkSource(oldRange: Range, newRange: Range, short: bool, section: string, rows: seq<Row>)

  /** One file to print: what its `diff --git` line says, its extended header lines, its paths, each written plain or
      quoted, and its hunks. */
  datatype FileSource = FileSource(title: string, extended: seq<string>, oldPath: Option<string>,
                                   newPath: Option<string>, oldQuoted: bool, newQuoted: bool, hunks: seq<HunkSource>)

  const NO_NEWLINE_TEXT := "No newline at end of file"

  function Marker(kind: Kind): string {
    match kind
    case Context => " "
    case Deletion => "-"
    case Addition => "+"
    case NoNewline => "\\ "
  }

  function RowText(row: Row): string {
    Marker(row.kind) + row.text
  }

  function RowTexts(rows: seq<Row>): seq<string> {
    if rows == [] then [] else [RowText(rows[0])] + RowTexts(rows[1..])
  }

  function OldRows(rows: seq<Row>): nat {
    if rows == [] then 0
    else OnOld(rows[0]) + OldRows(rows[1..])
  }

  function NewRows(rows: seq<Row>): nat {
    if rows == [] then 0
    else OnNew(rows[0]) + NewRows(rows[1..])
  }

  predicate PrintableRow(row: Row) {
    && Free(row.text, '\n') && !EndsInReturn(row.text) && |row.text| <= MAXIMUM_LINE_BYTES
    && (row.kind == NoNewline ==> row.text == NO_NEWLINE_TEXT)
  }

  predicate PrintableHunk(hunk: HunkSource) {
    && ValidRange(hunk.oldRange) && ValidRange(hunk.newRange)
    && (hunk.section != "" ==> hunk.section[0] == ' ') && Free(hunk.section, '\n') && !EndsInReturn(hunk.section)
    && (forall i :: 0 <= i < |hunk.rows| ==> PrintableRow(hunk.rows[i]))
    && OldRows(hunk.rows) == hunk.oldRange.count && NewRows(hunk.rows) == hunk.newRange.count
  }

  predicate PrintableSide(path: Option<string>, quoted: bool) {
    path.Some? ==> Printable(path.value, quoted)
  }

  /** A line that survives splitting at line feeds and dropping a final carriage return. */
  predicate Clean(line: string) {
    Free(line, '\n') && !EndsInReturn(line)
  }

  /** A line between the `diff --git` line and the paths: a mode, an index, a rename or a copy, anything that does not
      open a file, a hunk or a path, and does not say that the file is binary. */
  predicate Extended(line: string) {
    && Clean(line)
    && !("diff --git " <= line) && !Combined(line) && !("@@" <= line) && !("--- " <= line) && !("+++ " <= line)
    && !("Binary files " <= line) && line != "GIT binary patch"
  }

  predicate PrintableFile(file: FileSource) {
    && Clean(file.title) && (forall i :: 0 <= i < |file.extended| ==> Extended(file.extended[i]))
    && PrintableSide(file.oldPath, file.oldQuoted) && PrintableSide(file.newPath, file.newQuoted)
    && (forall i :: 0 <= i < |file.hunks| ==> PrintableHunk(file.hunks[i]))
  }

  /** One side of a file as its header names it. */
  function SideText(path: Option<string>, quoted: bool, prefix: string): string
    requires PrintableSide(path, quoted) && Bytes(prefix)
  {
    if path.None? then "/dev/null" else PathText(prefix + path.value, quoted)
  }

  function HunkTexts(hunk: HunkSource): seq<string> {
    [HeaderText(hunk.oldRange, hunk.newRange, hunk.short, hunk.section)] + RowTexts(hunk.rows)
  }

  function HunksTexts(hunks: seq<HunkSource>): seq<string> {
    if hunks == [] then [] else HunkTexts(hunks[0]) + HunksTexts(hunks[1..])
  }

  function OldText(file: FileSource): string
    requires PrintableFile(file)
  {
    SideText(file.oldPath, file.oldQuoted, "a/")
  }

  function NewText(file: FileSource): string
    requires PrintableFile(file)
  {
    SideText(file.newPath, file.newQuoted, "b/")
  }

  function HeadTexts(file: FileSource): seq<string>
    requires PrintableFile(file)
  {
    ["diff --git " + file.title] + file.extended + ["--- " + OldText(file), "+++ " + NewText(file)]
  }

  function FileTexts(file: FileSource): seq<string>
    requires PrintableFile(file)
  {
    HeadTexts(file) + HunksTexts(file.hunks)
  }

  predicate AllPrintable(files: seq<FileSource>) {
    forall i :: 0 <= i < |files| ==> PrintableFile(files[i])
  }

  function AllTexts(files: seq<FileSource>): seq<string>
    requires AllPrintable(files)
  {
    if files == [] then [] else FileTexts(files[0]) + AllTexts(files[1..])
  }

  function Print(files: seq<FileSource>): string
    requires AllPrintable(files)
  {
    Unlines(AllTexts(files))
  }

  function OnOld(row: Row): nat {
    if row.kind == Context || row.kind == Deletion then 1 else 0
  }

  function OnNew(row: Row): nat {
    if row.kind == Context || row.kind == Addition then 1 else 0
  }

  function ShownRow(row: Row, oldLine: int, newLine: int, id: nat): Line {
    Line(id, row.kind, row.text,
         if OnOld(row) == 1 then Some(oldLine) else None, if OnNew(row) == 1 then Some(newLine) else None)
  }

  /** The rows as they are shown, numbered from the starts and identified by their source line. */
  function ShownRows(rows: seq<Row>, oldLine: int, newLine: int, id: nat): seq<Line> {
    if rows == [] then []
    else
      [ShownRow(rows[0], oldLine, newLine, id)]
      + ShownRows(rows[1..], oldLine + OnOld(rows[0]), newLine + OnNew(rows[0]), id + 1)
  }

  function ShownHunk(hunk: HunkSource, id: nat): Hunk {
    Hunk(id, HeaderText(hunk.oldRange, hunk.newRange, hunk.short, hunk.section),
         hunk.oldRange.start, hunk.oldRange.count, hunk.newRange.start, hunk.newRange.count,
         ShownRows(hunk.rows, hunk.oldRange.start, hunk.newRange.start, id + 1))
  }

  function ShownHunks(hunks: seq<HunkSource>, id: nat): seq<Hunk> {
    if hunks == [] then []
    else [ShownHunk(hunks[0], id)] + ShownHunks(hunks[1..], id + 1 + |hunks[0].rows|)
  }

  /** File number `k`, whose first line is line `i`, before its patch is attached. */
  function ShownFile(file: FileSource, k: nat, i: nat): File {
    File(k, file.oldPath, file.newPath, false, false, ShownHunks(file.hunks, i + |file.extended| + 3), "")
  }

  /** Everything the parser should give back for the printed files. */
  function Shown(files: seq<FileSource>, k: nat, i: nat): seq<File>
    requires AllPrintable(files)
  {
    if files == [] then []
    else
      [ShownFile(files[0], k, i).(patch := Unlines(FileTexts(files[0])))]
      + Shown(files[1..], k + 1, i + |FileTexts(files[0])|)
  }

  /** The reader fed with lines one after another; `after` is the line behind them. */
  function Feed(s: State, lines: seq<string>, i: nat, after: string): State
    decreases |lines|
  {
    if lines == [] then s
    else Feed(Step(s, lines[0], if |lines| > 1 then lines[1] else after, i), lines[1..], i + 1, after)
  }

  lemma {:induction false} FeedConcat(s: State, a: seq<string>, b: seq<string>, i: nat, after: string)
    ensures Feed(s, a + b, i, after)
         == Feed(Feed(s, a, i, if b != [] then b[0] else after), b, i + |a|, after)
    decreases |a|
  {
    hide Step;
    if a == [] {
      assert a + b == b;
    } else {
      assert (a + b)[1..] == a[1..] + b;
      var next := if |a + b| > 1 then (a + b)[1] else after;
      FeedConcat(Step(s, a[0], next, i), a[1..], b, i + 1, after);
    }
  }

  predicate RowFits(s: State, row: Row) {
    s.hunk.Some? && s.oldRemaining >= OnOld(row) && s.newRemaining >= OnNew(row)
  }

  /** No header test can claim a printed row. */
  lemma RowIsNoHeader(row: Row)
    ensures var line := RowText(row);
            line != "" && !("diff --git " <= line) && !Combined(line) && !("@@ " <= line) && !("@@" <= line)
  {
    var line := RowText(row);
    assert line[0] == Marker(row.kind)[0];
    Starts("diff --git ", line);
    Starts("diff --cc ", line);
    Starts("diff --combined ", line);
    Starts("@@ ", line);
    Starts("@@", line);
  }

  lemma RowIsBody(s: State, row: Row, next: string, i: nat)
    requires PrintableRow(row) && RowFits(s, row)
    ensures row.kind == NoNewline ==>
              Step(s, RowText(row), next, i) == AppendLine(s, NoNewline, NO_NEWLINE_TEXT, None, None, i)
    ensures row.kind != NoNewline ==>
              FitsHunk(s, RowText(row)) && Step(s, RowText(row), next, i) == BodyLine(s, RowText(row), i)
  {
    hide OpenGitFile, OpenHunk, FinishFile, FinishHunk, MarkPartial, Headers, AppendLine, BodyLine, Combined, RowText;
    hide FitsHunk;
    RowIsNoHeader(row);
    RowIsItsKind(s, row);
  }

  lemma RowIsItsKind(s: State, row: Row)
    requires PrintableRow(row) && RowFits(s, row)
    ensures RowText(row) == NO_NEWLINE <==> row.kind == NoNewline
    ensures row.kind != NoNewline ==> FitsHunk(s, RowText(row)) && InHunk(s)
  {
    var line := RowText(row);
    assert line[0] == Marker(row.kind)[0];
    assert NO_NEWLINE[0] == '\\';
    if row.kind == NoNewline { assert line == NO_NEWLINE; }
  }

  /** The reader once a row is taken by its counter and shown with its text and numbers. */
  function AfterRow(s: State, row: Row, i: nat): State
    requires RowFits(s, row)
  {
    var hunk := s.hunk.value;
    s.(hunk := Some(hunk.(lines := hunk.lines + [ShownRow(row, s.oldLine, s.newLine, i)])),
       oldRemaining := s.oldRemaining - OnOld(row), newRemaining := s.newRemaining - OnNew(row),
       oldLine := s.oldLine + OnOld(row), newLine := s.newLine + OnNew(row))
  }

  lemma RowStep(s: State, row: Row, next: string, i: nat)
    requires PrintableRow(row) && RowFits(s, row)
    ensures Step(s, RowText(row), next, i) == AfterRow(s, row, i)
  {
    hide Step;
    RowIsBody(s, row, next, i);
    var line := RowText(row);
    assert line[0] == Marker(row.kind)[0];
    if row.kind != NoNewline { assert line[1..] == row.text; }
    assert AppendLine(s, row.kind, row.text, None, None, i).truncated == s.truncated;
  }

  predicate RowsFit(s: State, rows: seq<Row>) {
    s.hunk.Some? && s.oldRemaining == OldRows(rows) && s.newRemaining == NewRows(rows)
  }

  /** The reader once the rows of a hunk with exact counts have run both counters down to zero. */
  function AfterRows(s: State, rows: seq<Row>, i: nat): State
    requires RowsFit(s, rows)
  {
    var hunk := s.hunk.value;
    s.(hunk := Some(hunk.(lines := hunk.lines + ShownRows(rows, s.oldLine, s.newLine, i))),
       oldRemaining := 0, newRemaining := 0,
       oldLine := s.oldLine + OldRows(rows), newLine := s.newLine + NewRows(rows))
  }

  lemma RowByRow(s: State, rows: seq<Row>, i: nat)
    requires RowsFit(s, rows) && rows != []
    ensures RowFits(s, rows[0]) && RowsFit(AfterRow(s, rows[0], i), rows[1..])
    ensures AfterRows(AfterRow(s, rows[0], i), rows[1..], i + 1) == AfterRows(s, rows, i)
  {
    hide OnOld, OnNew, ShownRow;
    var lines := s.hunk.value.lines;
    var t := AfterRow(s, rows[0], i);
    var first := ShownRow(rows[0], s.oldLine, s.newLine, i);
    var rest := ShownRows(rows[1..], t.oldLine, t.newLine, i + 1);
    assert lines + [first] + rest == lines + ([first] + rest);
  }

  lemma {:induction false} BodyFeeds(s: State, rows: seq<Row>, i: nat, after: string)
    requires forall j :: 0 <= j < |rows| ==> PrintableRow(rows[j])
    requires RowsFit(s, rows)
    ensures Feed(s, RowTexts(rows), i, after) == AfterRows(s, rows, i)
    decreases |rows|
  {
    if rows == [] {
      assert s.hunk.value.lines + [] == s.hunk.value.lines;
    } else {
      hide Step, PrintableRow, AfterRow, AfterRows, RowFits, RowsFit, RowText;
      RowByRow(s, rows, i);
      var texts := RowTexts(rows);
      RowStep(s, rows[0], if |texts| > 1 then texts[1] else after, i);
      assert texts[1..] == RowTexts(rows[1..]);
      BodyFeeds(AfterRow(s, rows[0], i), rows[1..], i + 1, after);
    }
  }

  predicate Quiet(s: State) {
    s.oldRemaining == 0 && s.newRemaining == 0
  }

  /** Equal but for the running numbers, which only matter inside a hunk. */
  predicate Same(s: State, t: State) {
    s == t.(oldLine := s.oldLine, newLine := s.newLine)
  }

  lemma HunkFeeds(s: State, hunk: HunkSource, i: nat, after: string)
    requires Quiet(s) && s.file.Some? && PrintableHunk(hunk)
    ensures var t := Feed(s, HunkTexts(hunk), i, after);
            Quiet(t) && Same(t, FinishHunk(s).(hunk := Some(ShownHunk(hunk, i))))
  {
    var texts := HunkTexts(hunk);
    var next := if |texts| > 1 then texts[1] else after;
    HeaderStep(s, hunk, next, i);
    var t := Step(s, texts[0], next, i);
    assert texts[1..] == RowTexts(hunk.rows);
    hide Step, FinishHunk, PrintableRow, HeaderText, OldRows, NewRows, ShownRows, RowTexts;
    BodyFeeds(t, hunk.rows, i + 1, after);
    assert [] + ShownRows(hunk.rows, t.oldLine, t.newLine, i + 1) == ShownRows(hunk.rows, t.oldLine, t.newLine, i + 1);
  }

  lemma HeaderStep(s: State, hunk: HunkSource, next: string, i: nat)
    requires Quiet(s) && s.file.Some? && PrintableHunk(hunk)
    ensures var o, n := hunk.oldRange, hunk.newRange;
            var line := HeaderText(o, n, hunk.short, hunk.section);
            Step(s, line, next, i)
            == FinishHunk(s).(hunk := Some(Hunk(i, line, o.start, o.count, n.start, n.count, [])),
                              oldLine := o.start, newLine := n.start, oldRemaining := o.count, newRemaining := n.count)
  {
    hide ParseHeader, GitHeaderPaths, AppendLine, BodyLine, Headers, PrintableRow, OldRows, NewRows, RangeText;
    var line := HeaderText(hunk.oldRange, hunk.newRange, hunk.short, hunk.section);
    HeaderParses(hunk.oldRange, hunk.newRange, hunk.short, hunk.section);
    assert line[0] == '@' && "@@ " <= line;
    Starts("diff --git ", line);
    Starts("diff --cc ", line);
    Starts("diff --combined ", line);
  }

  /** The reader with its hunk closed and more hunks behind it. */
  function WithHunks(s: State, more: seq<Hunk>): State
    requires s.file.Some?
  {
    var t := FinishHunk(s);
    t.(file := Some(t.file.value.(hunks := t.file.value.hunks + more)))
  }

  lemma OneHunkCloses(s: State, t: State, hunk: Hunk)
    requires s.file.Some? && Quiet(t) && Same(t, FinishHunk(s).(hunk := Some(hunk)))
    ensures t.file.Some? && Same(FinishHunk(t), WithHunks(s, [hunk]))
  {
  }

  lemma HunksCompose(s: State, t: State, u: State, first: seq<Hunk>, rest: seq<Hunk>)
    requires s.file.Some? && t.file.Some?
    requires Same(FinishHunk(t), WithHunks(s, first)) && Same(u, WithHunks(t, rest))
    ensures Same(u, WithHunks(s, first + rest))
  {
    hide FinishHunk;
    var before := FinishHunk(s).file.value.hunks;
    assert before + first + rest == before + (first + rest);
  }

  lemma {:induction false} HunksFeed(s: State, hunks: seq<HunkSource>, i: nat, after: string)
    requires Quiet(s) && s.file.Some? && forall k :: 0 <= k < |hunks| ==> PrintableHunk(hunks[k])
    ensures var t := Feed(s, HunksTexts(hunks), i, after);
            Quiet(t) && t.file.Some? && Same(FinishHunk(t), WithHunks(s, ShownHunks(hunks, i)))
    decreases |hunks|
  {
    hide Step, PrintableHunk, ShownHunk, HunkTexts, FinishHunk;
    if hunks == [] {
      var closed := FinishHunk(s).file.value.hunks;
      assert closed + [] == closed;
    } else {
      hide WithHunks, Same;
      var first, rest := HunkTexts(hunks[0]), HunksTexts(hunks[1..]);
      var next := if rest != [] then rest[0] else after;
      FeedConcat(s, first, rest, i, after);
      HunkFeeds(s, hunks[0], i, next);
      HunkLength(hunks[0]);
      var t := Feed(s, first, i, next);
      OneHunkCloses(s, t, ShownHunk(hunks[0], i));
      HunksFeed(t, hunks[1..], i + |first|, after);
      HunksCompose(s, t, FinishHunk(Feed(t, rest, i + |first|, after)), [ShownHunk(hunks[0], i)],
                   ShownHunks(hunks[1..], i + |first|));
    }
  }

  lemma HunkLength(hunk: HunkSource)
    ensures |HunkTexts(hunk)| == 1 + |hunk.rows|
  {
    RowsLength(hunk.rows);
  }

  lemma {:induction false} RowsLength(rows: seq<Row>)
    ensures |RowTexts(rows)| == |rows|
  {
    if rows != [] { RowsLength(rows[1..]); }
  }

  /** A printed side reads back as the path it was printed from. */
  lemma SideParses(path: Option<string>, quoted: bool, prefix: string)
    requires PrintableSide(path, quoted) && (prefix == "a/" || prefix == "b/")
    ensures HeaderPath(SideText(path, quoted, prefix)) == path
    ensures Free(SideText(path, quoted, prefix), '\n') && !EndsInReturn(SideText(path, quoted, prefix))
  {
    if path.Some? {
      PathParses(prefix + path.value, quoted);
      hide PathOf, PathText;
      SideReads(SideText(path, quoted, prefix), path.value, prefix);
    } else {
      NullReads();
    }
  }

  lemma SideReads(text: string, path: string, prefix: string)
    requires Free(text, '\t') && PathOf(text) == prefix + path && (prefix == "a/" || prefix == "b/")
    ensures HeaderPath(text) == Some(path)
  {
    hide PathOf;
    SplitFree(text, '\t');
    assert (prefix + path)[0] != '/' && (prefix + path)[2..] == path;
  }

  lemma NullReads()
    ensures HeaderPath("/dev/null") == None && Free("/dev/null", '\n')
  {
    SplitFree("/dev/null", '\t');
    NullPath();
  }

  lemma NullPath()
    ensures PathOf("/dev/null") == "/dev/null"
  {
  }

  /** A reader at the open file of `s`, whose paths may have been set otherwise. */
  ghost predicate Retitled(s: State, t: State) {
    && s.file.Some? && t.file.Some?
    && t == s.(file := Some(s.file.value.(oldPath := t.file.value.oldPath, newPath := t.file.value.newPath)))
  }

  lemma ExtendedIsMetadata(s: State, line: string, next: string, i: nat)
    requires Extended(line) && s.hunk.None?
    ensures Step(s, line, next, i) == Metadata(s, line, i)
  {
    hide OpenGitFile, FinishFile, FinishHunk, OpenHunk, AppendLine, BodyLine, OpenOldPath, Metadata, HeaderPath,
         Combined, Clean, FitsHunk;
    AtSigns(line);
  }

  lemma MetadataRetitles(s: State, line: string, i: nat)
    requires !("Binary files " <= line) && line != "GIT binary patch" && s.file.Some?
    ensures Retitled(s, Metadata(s, line, i))
  {
    hide PathOf;
  }

  lemma ExtendedStep(s: State, line: string, next: string, i: nat)
    requires Extended(line) && s.file.Some? && s.hunk.None?
    ensures Retitled(s, Step(s, line, next, i))
  {
    hide Step, Metadata;
    ExtendedIsMetadata(s, line, next, i);
    MetadataRetitles(s, line, i);
  }

  lemma AtSigns(line: string)
    ensures "@@ " <= line ==> "@@" <= line
  {
  }

  /** Extended header lines change no more than the paths. */
  lemma {:induction false} ExtendedFeeds(s: State, lines: seq<string>, i: nat, after: string)
    requires (forall k :: 0 <= k < |lines| ==> Extended(lines[k])) && s.file.Some? && s.hunk.None?
    ensures Retitled(s, Feed(s, lines, i, after))
    decreases |lines|
  {
    hide Step, Extended;
    if lines != [] {
      var next := if |lines| > 1 then lines[1] else after;
      ExtendedStep(s, lines[0], next, i);
      ExtendedFeeds(Step(s, lines[0], next, i), lines[1..], i + 1, after);
    }
  }

  /** The header lines of a file leave exactly its two paths, whatever the `diff --git` line and the lines between
      say. */
  lemma FileHeaderFeeds(s: State, file: FileSource, i: nat, after: string)
    requires Quiet(s) && PrintableFile(file)
    ensures var done := FinishFile(s, i);
            Feed(s, HeadTexts(file), i, after)
            == done.(file := Some(NewFile(|done.files|, file.oldPath, file.newPath)), fileStart := i,
                     expectsNewPath := false)
  {
    hide Step, GitHeaderPaths, HeaderPath, FinishFile, PrintableHunk, Extended, Clean, SideText;
    var title, a, b := "diff --git " + file.title, "--- " + OldText(file), "+++ " + NewText(file);
    var j := i + 1 + |file.extended|;
    var second := if file.extended != [] then file.extended[0] else a;
    SideParses(file.oldPath, file.oldQuoted, "a/");
    SideParses(file.newPath, file.newQuoted, "b/");
    FinishFileCloses(s, i);
    GitStep(s, title, second, i);
    var t0 := OpenGitFile(s, title, i);
    ExtendedFeeds(t0, file.extended, i + 1, a);
    var t1 := Feed(t0, file.extended, i + 1, a);
    assert a[4..] == OldText(file) && b[4..] == NewText(file);
    OldStep(t1, a, b, j);
    NewStep(Step(t1, a, b, j), b, after, j + 1);
    HeadSteps(s, title, file.extended, a, b, i, after);
  }

  lemma HeadSteps(s: State, title: string, extended: seq<string>, a: string, b: string, i: nat, after: string)
    ensures var t0 := Step(s, title, if extended != [] then extended[0] else a, i);
            var j := i + 1 + |extended|;
            Feed(s, [title] + extended + [a, b], i, after)
            == Step(Step(Feed(t0, extended, i + 1, a), a, b, j), b, after, j + 1)
  {
    hide Step;
    var rest := extended + [a, b];
    assert [title] + extended + [a, b] == [title] + rest && ([title] + rest)[1..] == rest;
    var t0 := Step(s, title, rest[0], i);
    assert Feed(s, [title] + rest, i, after) == Feed(t0, rest, i + 1, after);
    FeedConcat(t0, extended, [a, b], i + 1, after);
    var t1 := Feed(t0, extended, i + 1, a);
    assert [a, b][1..] == [b] && [b][1..] == [];
    assert Feed(Step(t1, a, b, i + 1 + |extended|), [b], i + 2 + |extended|, after)
        == Step(Step(t1, a, b, i + 1 + |extended|), b, after, i + 2 + |extended|);
  }

  lemma FinishFileCloses(s: State, i: nat)
    requires Quiet(s)
    ensures FinishFile(s, i).hunk.None? && FinishFile(s, i).file.None?
    ensures FinishFile(s, i).oldRemaining == 0 && FinishFile(s, i).newRemaining == 0
  {
  }

  lemma GitStep(s: State, line: string, next: string, i: nat)
    requires "diff --git " <= line
    ensures Step(s, line, next, i) == OpenGitFile(s, line, i)
  {
  }

  lemma OldStep(s: State, line: string, next: string, i: nat)
    requires "--- " <= line && "+++ " <= next && s.hunk.None? && s.file.Some? && s.file.value.hunks == []
    ensures Step(s, line, next, i)
         == s.(file := Some(s.file.value.(oldPath := HeaderPath(line[4..]))), expectsNewPath := true)
  {
    hide GitHeaderPaths, HeaderPath, FinishFile, AppendLine, BodyLine, OpenHunk, Metadata;
    assert line[0] == '-';
    Starts("diff --git ", line);
    Starts("diff --cc ", line);
    Starts("diff --combined ", line);
    Starts("@@", line);
    Starts("@@ ", line);
  }

  lemma NewStep(s: State, line: string, next: string, i: nat)
    requires "+++ " <= line && s.hunk.None? && s.file.Some? && s.expectsNewPath
    ensures Step(s, line, next, i)
         == s.(file := Some(s.file.value.(newPath := HeaderPath(line[4..]))), expectsNewPath := false)
  {
    hide GitHeaderPaths, HeaderPath, FinishFile, AppendLine, BodyLine, OpenHunk, Metadata;
    assert line[0] == '+';
    Starts("diff --git ", line);
    Starts("diff --cc ", line);
    Starts("diff --combined ", line);
    Starts("@@", line);
    Starts("@@ ", line);
    Starts("--- ", line);
  }

  /** A printed file behind whatever was read before: the file before is closed where it starts. */
  lemma FileFeeds(s: State, file: FileSource, i: nat, after: string)
    requires Quiet(s) && PrintableFile(file)
    ensures var t := Feed(s, FileTexts(file), i, after);
            var done := FinishFile(s, i);
            Quiet(t) && t.file.Some?
            && Same(FinishHunk(t), done.(file := Some(ShownFile(file, |done.files|, i)), fileStart := i,
                                         expectsNewPath := false))
  {
    hide Step, FinishFile, PrintableHunk, SideText, ShownHunks, HunksTexts, Extended, Clean;
    var texts, rest := HeadTexts(file), HunksTexts(file.hunks);
    var next := if rest != [] then rest[0] else after;
    assert |texts| == |file.extended| + 3;
    FeedConcat(s, texts, rest, i, after);
    FinishFileCloses(s, i);
    FileHeaderFeeds(s, file, i, next);
    var t := Feed(s, texts, i, next);
    var start := i + |file.extended| + 3;
    HunksFeed(t, file.hunks, start, after);
    assert [] + ShownHunks(file.hunks, start) == ShownHunks(file.hunks, start);
  }

  /** The files as the reader leaves them, before their patches are attached. */
  function Unpatched(files: seq<FileSource>, k: nat, i: nat): seq<File>
    requires AllPrintable(files)
  {
    if files == [] then []
    else [ShownFile(files[0], k, i)] + Unpatched(files[1..], k + 1, i + |FileTexts(files[0])|)
  }

  function FileSpans(files: seq<FileSource>, i: nat): seq<Span>
    requires AllPrintable(files)
  {
    if files == [] then []
    else [Span(i, i + |FileTexts(files[0])|)] + FileSpans(files[1..], i + |FileTexts(files[0])|)
  }

  ghost predicate Appends(closed: State, before: State, files: seq<File>, spans: seq<Span>) {
    && closed.files == before.files + files && closed.spans == before.spans + spans
    && closed.truncated == before.truncated && closed.unsupported == before.unsupported
  }

  lemma OneFileCloses(s: State, t: State, file: File, i: nat, end: nat)
    requires Quiet(s)
    requires Same(FinishHunk(t), FinishFile(s, i).(file := Some(file), fileStart := i, expectsNewPath := false))
    ensures Appends(FinishFile(t, end), FinishFile(s, i), [file], [Span(i, end)])
  {
    hide FinishHunk;
  }

  lemma FirstFile(files: seq<FileSource>, k: nat, i: nat)
    requires AllPrintable(files) && files != []
    ensures PrintableFile(files[0]) && AllPrintable(files[1..])
    ensures var first := FileTexts(files[0]);
            var shown, end := ShownFile(files[0], k, i), i + |first|;
            && AllTexts(files) == first + AllTexts(files[1..])
            && Unpatched(files, k, i) == [shown] + Unpatched(files[1..], k + 1, end)
            && FileSpans(files, i) == [Span(i, end)] + FileSpans(files[1..], end)
            && Shown(files, k, i) == [shown.(patch := Unlines(first))] + Shown(files[1..], k + 1, end)
  {
    hide PrintableFile, ShownFile, FileTexts;
  }

  lemma {:induction false} FilesFeed(s: State, files: seq<FileSource>, i: nat)
    requires Quiet(s) && AllPrintable(files)
    ensures var texts := AllTexts(files);
            var t := Feed(s, texts, i, "");
            Quiet(t)
            && Appends(FinishFile(t, i + |texts|), FinishFile(s, i),
                       Unpatched(files, |FinishFile(s, i).files|, i), FileSpans(files, i))
    decreases |files|
  {
    hide Step, FinishFile, PrintableFile, ShownFile, FileTexts;
    if files == [] {
      assert FinishFile(s, i).files + [] == FinishFile(s, i).files;
      assert FinishFile(s, i).spans + [] == FinishFile(s, i).spans;
    } else {
      FirstFile(files, |FinishFile(s, i).files|, i);
      hide AllPrintable, AllTexts, Unpatched, FileSpans, Shown, Appends, Same, Feed;
      var first, rest := FileTexts(files[0]), AllTexts(files[1..]);
      var next := if rest != [] then rest[0] else "";
      FeedConcat(s, first, rest, i, "");
      FileFeeds(s, files[0], i, next);
      var t := Feed(s, first, i, next);
      var k := |FinishFile(s, i).files|;
      OneFileCloses(s, t, ShownFile(files[0], k, i), i, i + |first|);
      FilesFeed(t, files[1..], i + |first|);
      AppendsCompose(FinishFile(Feed(t, rest, i + |first|, ""), i + |first| + |rest|), FinishFile(t, i + |first|),
                     FinishFile(s, i), [ShownFile(files[0], k, i)], [Span(i, i + |first|)],
                     Unpatched(files[1..], k + 1, i + |first|), FileSpans(files[1..], i + |first|));
    }
  }

  lemma AppendsCompose(c: State, b: State, a: State, files: seq<File>, spans: seq<Span>, files': seq<File>,
      spans': seq<Span>)
    requires Appends(b, a, files, spans) && Appends(c, b, files', spans')
    ensures Appends(c, a, files + files', spans + spans')
  {
  }

  ghost predicate AllClean(lines: seq<string>) {
    forall i :: 0 <= i < |lines| ==> Clean(lines[i])
  }

  lemma {:induction false} RowsClean(rows: seq<Row>)
    requires forall i :: 0 <= i < |rows| ==> PrintableRow(rows[i])
    ensures AllClean(RowTexts(rows))
  {
    if rows != [] {
      RowsClean(rows[1..]);
      assert Clean(RowText(rows[0]));
    }
  }

  lemma CleanBehind(prefix: string, text: string)
    requires Free(prefix, '\n') && Clean(text) && (text == "" ==> !EndsInReturn(prefix))
    ensures Clean(prefix + text)
  {
  }

  lemma RangeClean(r: Range, short: bool)
    requires ValidRange(r)
    ensures Free(RangeText(r, short), '\n')
  {
    DecimalParses(r.start);
    DecimalParses(r.count);
  }

  lemma HeaderClean(a: string, b: string, section: string)
    requires Free(a, '\n') && Free(b, '\n') && Clean(section)
    ensures Clean("@@ -" + a + " +" + b + " @@" + section)
  {
    CleanBehind("@@ -" + a + " +" + b + " @@", section);
  }

  lemma CleanHead(line: string, rest: seq<string>)
    requires Clean(line) && AllClean(rest)
    ensures AllClean([line] + rest)
  {
    hide Clean;
  }

  lemma HunkClean(hunk: HunkSource)
    requires PrintableHunk(hunk)
    ensures AllClean(HunkTexts(hunk))
  {
    RowsClean(hunk.rows);
    RangeClean(hunk.oldRange, hunk.short);
    RangeClean(hunk.newRange, hunk.short);
    hide RangeText, PrintableRow, RowTexts, AllClean, OldRows, NewRows;
    HeaderClean(RangeText(hunk.oldRange, hunk.short), RangeText(hunk.newRange, hunk.short), hunk.section);
    CleanHead(HeaderText(hunk.oldRange, hunk.newRange, hunk.short, hunk.section), RowTexts(hunk.rows));
  }

  lemma {:induction false} HunksClean(hunks: seq<HunkSource>)
    requires forall i :: 0 <= i < |hunks| ==> PrintableHunk(hunks[i])
    ensures AllClean(HunksTexts(hunks))
  {
    hide PrintableHunk, HunkTexts, Clean;
    if hunks != [] {
      HunkClean(hunks[0]);
      HunksClean(hunks[1..]);
    }
  }

  lemma FileClean(file: FileSource)
    requires PrintableFile(file)
    ensures AllClean(FileTexts(file))
  {
    hide SideText, HunksTexts, PrintableHunk;
    SideParses(file.oldPath, file.oldQuoted, "a/");
    SideParses(file.newPath, file.newQuoted, "b/");
    HunksClean(file.hunks);
    CleanBehind("diff --git ", file.title);
    CleanBehind("--- ", OldText(file));
    CleanBehind("+++ ", NewText(file));
    assert AllClean(file.extended) by { assert forall i :: 0 <= i < |file.extended| ==> Extended(file.extended[i]); }
    hide AllClean, Clean, Free, EndsInReturn;
    var title, a, b := "diff --git " + file.title, "--- " + OldText(file), "+++ " + NewText(file);
    HeadClean(title, file.extended, a, b);
    CleanJoin(HeadTexts(file), HunksTexts(file.hunks));
  }

  lemma CleanJoin(front: seq<string>, rest: seq<string>)
    requires AllClean(front) && AllClean(rest)
    ensures AllClean(front + rest)
  {
    hide Clean;
  }

  lemma HeadClean(title: string, extended: seq<string>, a: string, b: string)
    requires Clean(title) && AllClean(extended) && Clean(a) && Clean(b)
    ensures AllClean([title] + extended + [a, b])
  {
    hide Clean;
  }

  lemma {:induction false} AllTextsClean(files: seq<FileSource>)
    requires AllPrintable(files)
    ensures AllClean(AllTexts(files))
  {
    hide PrintableFile, FileTexts, Clean;
    if files != [] {
      FileClean(files[0]);
      AllTextsClean(files[1..]);
    }
  }

  /** Running over clean lines is feeding them. */
  lemma {:induction false} RunFeeds(lines: seq<string>, count: nat, n: nat)
    requires n <= count <= |lines| && AllClean(lines[..count])
    ensures Run(lines, count, count) == Feed(Run(lines, count, n), lines[n..count], n, "")
    decreases count - n
  {
    hide Step;
    if n < count {
      RunFeeds(lines, count, n + 1);
      var rest := lines[n..count];
      assert rest[1..] == lines[n + 1..count];
      assert Clean(lines[..count][n]);
      assert Chomp(lines[n]) == lines[n];
      assert NextLine(lines, count, n) == if |rest| > 1 then rest[1] else "";
    }
  }

  lemma SlicePatch(input: string, lines: seq<string>, count: nat, span: Span, texts: seq<string>)
    requires span.from < span.to <= |lines| && lines[span.from..span.to] == texts && EndsInLineFeed(input)
    ensures FilePatch(input, lines, count, span) == Unlines(texts)
  {
    UnlinesJoins(texts);
  }

  lemma PatchesCons(file: File, span: Span, files: seq<File>, spans: seq<Span>, input: string, lines: seq<string>,
      count: nat)
    requires |files| == |spans| && InBounds(spans, |lines|) && span.from < span.to <= |lines|
    ensures InBounds([span] + spans, |lines|)
    ensures WithPatches([file] + files, [span] + spans, input, lines, count)
         == [file.(patch := FilePatch(input, lines, count, span))] + WithPatches(files, spans, input, lines, count)
  {
    hide FilePatch;
  }

  lemma SliceParts<T>(lines: seq<T>, i: nat, first: seq<T>, rest: seq<T>)
    requires i + |first + rest| <= |lines| && lines[i..i + |first + rest|] == first + rest
    ensures lines[i..i + |first|] == first && lines[i + |first|..i + |first| + |rest|] == rest
  {
    var both := lines[i..i + |first + rest|];
    assert both[..|first|] == first && both[|first|..] == rest;
  }

  lemma {:induction false} ShownPatches(files: seq<FileSource>, k: nat, i: nat, lines: seq<string>, count: nat,
      input: string)
    requires AllPrintable(files) && EndsInLineFeed(input)
    requires i + |AllTexts(files)| <= |lines| && lines[i..i + |AllTexts(files)|] == AllTexts(files)
    ensures |FileSpans(files, i)| == |Unpatched(files, k, i)| && InBounds(FileSpans(files, i), |lines|)
    ensures WithPatches(Unpatched(files, k, i), FileSpans(files, i), input, lines, count) == Shown(files, k, i)
    decreases |files|
  {
    hide PrintableFile, ShownFile, FileTexts, EndsInLineFeed, FilePatch;
    if files != [] {
      var first, rest := FileTexts(files[0]), AllTexts(files[1..]);
      var end := i + |first|;
      FirstFile(files, k, i);
      hide AllPrintable, AllTexts, Unpatched, FileSpans, Shown, WithPatches, InBounds;
      FileIsLong(files[0]);
      SliceParts(lines, i, first, rest);
      ShownPatches(files[1..], k + 1, end, lines, count, input);
      SlicePatch(input, lines, count, Span(i, end), first);
      PatchesCons(ShownFile(files[0], k, i), Span(i, end), Unpatched(files[1..], k + 1, end),
                  FileSpans(files[1..], end), input, lines, count);
    }
  }

  lemma FileIsLong(file: FileSource)
    requires PrintableFile(file)
    ensures |FileTexts(file)| >= 3
  {
  }

  lemma RunOfPrint(files: seq<FileSource>)
    requires AllPrintable(files)
    ensures var texts := AllTexts(files);
            var t := Run(texts + [""], |texts|, |texts|);
            Appends(FinishFile(t, |texts|), START, Unpatched(files, 0, 0), FileSpans(files, 0))
  {
    hide Step, PrintableFile, FinishFile, Feed, AllTexts, Unpatched, FileSpans, Clean;
    var texts := AllTexts(files);
    AllTextsClean(files);
    assert (texts + [""])[0..|texts|] == texts == (texts + [""])[..|texts|];
    RunFeeds(texts + [""], |texts|, 0);
    StartCloses();
    FilesFeed(START, files, 0);
  }

  lemma StartCloses()
    ensures FinishFile(START, 0) == START && Quiet(START)
  {
  }

  lemma FinalOfPrint(t: State, n: nat)
    requires !t.truncated
    ensures Finish(t.(truncated := false), n) == FinishFile(t, n)
  {
    hide FinishFile;
    assert t.(truncated := false) == t;
  }

  lemma PrintEnds(files: seq<FileSource>)
    requires AllPrintable(files) && files != []
    ensures EndsInLineFeed(Print(files))
  {
    FileIsLong(files[0]);
    UnlinesJoins(AllTexts(files));
  }

  /** The parser undoes the printer: within the limits, the printed files come back with the same paths,
      hunks, kinds, texts and line numbers, their own source text as patch, and nothing partial. */
  lemma PrintParses(files: seq<FileSource>, maximumLines: nat, maximumBytes: nat)
    requires AllPrintable(files) && maximumLines > 0 && maximumBytes > 0
    requires |AllTexts(files)| <= maximumLines && |Print(files)| <= maximumBytes
    ensures Parsed(Print(files), maximumLines, maximumBytes) == ParsedDiff(Shown(files, 0, 0), false, false)
  {
    if files == [] {
      EmptyParses(maximumLines, maximumBytes);
    } else {
      hide AllTexts, AllPrintable, Shown, Unpatched, FileSpans, FinalState, WithPatches, InBounds, Parsed, Split, Print;
      PrintSplits(files, maximumLines, maximumBytes);
      PrintShows(files);
      WithinLimits(Print(files), maximumLines, maximumBytes, Shown(files, 0, 0));
    }
  }

  lemma PrintShows(files: seq<FileSource>)
    requires AllPrintable(files) && files != []
    ensures var lines, spans := AllTexts(files) + [""], FileSpans(files, 0);
            && |spans| == |Unpatched(files, 0, 0)| && InBounds(spans, |lines|) && Shown(files, 0, 0) != []
            && WithPatches(Unpatched(files, 0, 0), spans, Print(files), lines, LineCount(lines)) == Shown(files, 0, 0)
  {
    hide AllTexts, PrintableFile, Unpatched, FileSpans, WithPatches, InBounds;
    var texts := AllTexts(files);
    PrintEnds(files);
    assert (texts + [""])[0..|texts|] == texts;
    ShownPatches(files, 0, 0, texts + [""], LineCount(texts + [""]), Print(files));
  }

  lemma WithinLimits(patch: string, maximumLines: nat, maximumBytes: nat, files: seq<File>)
    requires maximumLines > 0 && maximumBytes > 0 && |patch| <= maximumBytes && files != []
    requires var s := FinalState(patch, maximumLines, maximumBytes);
             var lines := Split(patch, '\n');
             && |s.files| == |s.spans| && InBounds(s.spans, |lines|) && !s.truncated && !s.unsupported
             && WithPatches(s.files, s.spans, patch, lines, LineCount(lines)) == files
    ensures Parsed(patch, maximumLines, maximumBytes) == ParsedDiff(files, false, false)
  {
    hide FinalState, Split;
  }

  lemma EmptyParses(maximumLines: nat, maximumBytes: nat)
    requires maximumLines > 0
    ensures Parsed("", maximumLines, maximumBytes) == ParsedDiff([], false, false)
  {
  }

  lemma PrintSplits(files: seq<FileSource>, maximumLines: nat, maximumBytes: nat)
    requires AllPrintable(files) && |AllTexts(files)| <= maximumLines && |Print(files)| <= maximumBytes
    ensures var s := FinalState(Print(files), maximumLines, maximumBytes);
            && Split(Print(files), '\n') == AllTexts(files) + [""]
            && s.files == Unpatched(files, 0, 0) && s.spans == FileSpans(files, 0) && !s.truncated && !s.unsupported
  {
    hide Run, PrintableFile, AllTexts, Finish, Unpatched, FileSpans;
    var texts := AllTexts(files);
    AllTextsClean(files);
    SplitOfUnlines(texts);
    RunOfPrint(files);
    FinalOfPrint(Run(texts + [""], |texts|, |texts|), |texts|);
  }
}
