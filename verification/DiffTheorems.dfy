/** The main results about parsing: which source each file shows, and which counts may be published. */
module DiffTheorems {
  import opened Wrappers
  import opened Text
  import opened PatchHeaders
  import opened DiffDocument
  import opened PatchReader
  import opened UnifiedDiff
  import opened DiffInvariants
  import opened ParsePatch

  function Patches(files: seq<File>): string {
    if files == [] then "" else Patches(files[..|files| - 1]) + files[|files| - 1].patch
  }

  /** The text up to and including its `n`-th line feed, all of it when there are fewer. */
  function FirstLines(s: string, n: nat): string {
    if n == 0 || s == "" then ""
    else [s[0]] + FirstLines(s[1..], if s[0] == '\n' then n - 1 else n)
  }

  /** The kept input and the part of it that was consumed. */
  function ConsumedText(patch: string, maximumLines: nat, maximumBytes: nat): string {
    FirstLines(Limited(patch, maximumBytes), maximumLines)
  }

  ghost predicate Chain(spans: seq<Span>, from: nat, to: nat) {
    if spans == [] then from == to
    else
      var last := spans[|spans| - 1];
      Chain(spans[..|spans| - 1], from, last.from) && last.to == to
  }

  /** From line 0 on every line so far belongs to a finished file or to the open one. */
  ghost predicate Tiled(s: State) {
    s.file.Some? && Chain(s.spans, 0, s.fileStart)
  }

  /** The lines that open a file when none is open. */
  predicate Opens(line: string, next: string) {
    || "diff --git " <= line
    || ("@@ " <= line && ParseHeader(line).Some?)
    || ("--- " <= line && "+++ " <= next)
    || "Binary files " <= line || line == "GIT binary patch"
  }

  /** Between files just these lines open one, right where they stand, and no other line closes one. */
  lemma FirstOpens(s: State, line: string, next: string, i: nat)
    requires !Combined(line) && s.file.None? && s.hunk.None?
    ensures Step(s, line, next, i).file.Some? <==> Opens(line, next)
    ensures Opens(line, next) ==> Step(s, line, next, i).fileStart == i
    ensures Step(s, line, next, i).spans == s.spans
  {
    hide ParseHeader, GitHeaderPaths, HeaderPath, PathOf, NewFile;
    Starts("diff --git ", line);
    Starts("@@", line);
    Starts("@@ ", line);
    Starts("--- ", line);
    Starts("Binary files ", line);
  }

  /** Closing a hunk, marking a file and adding a row leave the open file where it is. */
  ghost predicate Stays(s: State, t: State) {
    t.file.Some? == s.file.Some? && t.spans == s.spans && t.fileStart == s.fileStart
  }

  lemma FinishHunkStays(s: State)
    ensures Stays(s, FinishHunk(s)) && Stays(s, MarkPartial(FinishHunk(s)))
  {
  }

  lemma FinishFileMoves(s: State, i: nat)
    requires s.file.Some?
    ensures FinishFile(s, i).spans == s.spans + [Span(s.fileStart, i)]
  {
    hide FinishHunk;
    FinishHunkStays(s);
  }

  lemma AppendStays(s: State, kind: Kind, text: string, oldLine: Option<int>, newLine: Option<int>, i: nat)
    ensures Stays(s, AppendLine(s, kind, text, oldLine, newLine, i))
  {
    hide Display;
  }

  lemma BodyStays(s: State, line: string, i: nat)
    requires FitsHunk(s, line)
    ensures Stays(s, BodyLine(s, line, i))
  {
    hide AppendLine;
    AppendStays(s, Context, line[1..], Some(s.oldLine), Some(s.newLine), i);
    AppendStays(s, Deletion, line[1..], Some(s.oldLine), None, i);
    AppendStays(s, Addition, line[1..], None, Some(s.newLine), i);
  }

  /** A reader that has a file open either keeps it or closes it right where the next one starts. */
  lemma StepMovesOn(s: State, line: string, next: string, i: nat)
    requires s.file.Some? && !Combined(line)
    ensures var t := Step(s, line, next, i);
            t.file.Some? && ((t.spans == s.spans && t.fileStart == s.fileStart)
                             || (t.spans == s.spans + [Span(s.fileStart, i)] && t.fileStart == i))
  {
    hide ParseHeader, GitHeaderPaths, HeaderPath, PathOf, NewFile, AppendLine, BodyLine, FinishHunk, FinishFile,
         MarkPartial, Metadata;
    FinishHunkStays(s);
    FinishFileMoves(s, i);
    if InHunk(s) { FinishFileMoves(MarkPartial(FinishHunk(s)), i); }
    MetadataStays(s, line, i);
    MetadataStays(MarkPartial(FinishHunk(s)), line, i);
    AppendStays(s, NoNewline, "No newline at end of file", None, None, i);
    if FitsHunk(s, line) { BodyStays(s, line, i); }
  }

  lemma MetadataStays(s: State, line: string, i: nat)
    requires s.file.Some?
    ensures Stays(s, Metadata(s, line, i))
  {
    hide PathOf;
  }

  lemma StepTiles(s: State, line: string, next: string, i: nat)
    requires Tiled(s) && !Combined(line)
    ensures Tiled(Step(s, line, next, i))
  {
    hide Step;
    StepMovesOn(s, line, next, i);
    assert (s.spans + [Span(s.fileStart, i)])[..|s.spans|] == s.spans;
  }

  /** No line among the first `n` starts a combined diff. */
  predicate NoCombined(lines: seq<string>, n: nat)
    requires n <= |lines|
  {
    forall i :: 0 <= i < n ==> !Combined(Chomp(lines[i]))
  }

  lemma {:induction false} RunTiles(lines: seq<string>, count: nat, n: nat)
    requires 0 < n <= count <= |lines| && NoCombined(lines, n)
    requires Opens(Chomp(lines[0]), NextLine(lines, count, 0))
    ensures Tiled(Run(lines, count, n))
  {
    hide Step, Opens;
    if n == 1 {
      assert Run(lines, count, 0) == START;
      FirstOpens(START, Chomp(lines[0]), NextLine(lines, count, 0), 0);
    } else {
      RunTiles(lines, count, n - 1);
      StepTiles(Run(lines, count, n - 1), Chomp(lines[n - 1]), NextLine(lines, count, n - 1), n - 1);
    }
  }

  lemma {:induction false} FirstLinesAreUnlines(s: string, n: nat)
    ensures var lines := Split(s, '\n');
            FirstLines(s, n) == (if n < |lines| then Unlines(lines[..n]) else s)
  {
    var lines := Split(s, '\n');
    if n > 0 && s != "" {
      var rest := Split(s[1..], '\n');
      if s[0] == '\n' {
        FirstLinesAreUnlines(s[1..], n - 1);
        assert lines[1..] == rest;
        if n < |lines| { assert lines[..n][1..] == rest[..n - 1]; }
      } else {
        FirstLinesAreUnlines(s[1..], n);
        if n < |lines| { assert lines[..n][1..] == rest[..n][1..]; }
      }
      assert s == [s[0]] + s[1..];
    }
  }

  /** The lines of the chained spans, every one closed by a line feed. */
  lemma {:induction false} ChainedPatches(files: seq<File>, spans: seq<Span>, input: string, lines: seq<string>,
                                          count: nat, to: nat)
    requires |files| == |spans| && InBounds(spans, |lines|) && Chain(spans, 0, to)
    requires to <= count <= |lines| && (to < count || EndsInLineFeed(input))
    ensures Patches(WithPatches(files, spans, input, lines, count)) == Unlines(lines[..to])
  {
    if files != [] {
      var last := spans[|spans| - 1];
      var shown := WithPatches(files, spans, input, lines, count);
      ChainedPatches(files[..|files| - 1], spans[..|spans| - 1], input, lines, count, last.from);
      assert shown[..|files| - 1] == WithPatches(files[..|files| - 1], spans[..|spans| - 1], input, lines, count);
      UnlinesJoins(lines[last.from..to]);
      UnlinesConcat(lines[..last.from], lines[last.from..to]);
      assert lines[..last.from] + lines[last.from..to] == lines[..to];
    } else {
      assert lines[..0] == [];
    }
  }

  lemma LastLine(input: string)
    ensures var lines := Split(input, '\n');
            lines[|lines| - 1] == "" <==> input == "" || EndsInLineFeed(input)
  {
    var lines := Split(input, '\n');
    JoinOfSplit(input, '\n');
    PartsAreFree(input, '\n');
    if |lines| > 1 {
      JoinConcat(lines[..|lines| - 1], lines[|lines| - 1..]);
      assert lines[..|lines| - 1] + lines[|lines| - 1..] == lines;
      UnlinesJoins(lines[..|lines| - 1]);
    }
  }

  /** The chained files of a whole run show exactly the consumed text. */
  lemma ChainShowsInput(files: seq<File>, spans: seq<Span>, input: string, n: nat)
    requires var lines := Split(input, '\n');
             && |files| == |spans| && InBounds(spans, |lines|) && Chain(spans, 0, n) && 0 < n <= LineCount(lines)
    ensures var lines := Split(input, '\n');
            Patches(WithPatches(files, spans, input, lines, LineCount(lines))) == FirstLines(input, n)
  {
    var lines := Split(input, '\n');
    var count := LineCount(lines);
    LastLine(input);
    FirstLinesAreUnlines(input, n);
    if n < count || EndsInLineFeed(input) {
      ChainedPatches(files, spans, input, lines, count, n);
      assert n < |lines|;
    } else {
      UnclosedChain(files, spans, input, lines, n);
      JoinOfSplit(input, '\n');
    }
  }

  /** When the input does not end in a line feed, neither does the last patch. */
  lemma UnclosedChain(files: seq<File>, spans: seq<Span>, input: string, lines: seq<string>, n: nat)
    requires |files| == |spans| && InBounds(spans, |lines|) && Chain(spans, 0, n) && 0 < n == |lines|
    requires !EndsInLineFeed(input)
    ensures Patches(WithPatches(files, spans, input, lines, n)) == Join(lines, '\n')
  {
    hide EndsInLineFeed, Join, Unlines;
    var last := spans[|spans| - 1];
    var front := files[..|files| - 1];
    var shown := WithPatches(files, spans, input, lines, n);
    ChainedPatches(front, spans[..|spans| - 1], input, lines, n, last.from);
    assert shown[..|files| - 1] == WithPatches(front, spans[..|spans| - 1], input, lines, n);
    assert shown[|files| - 1].patch == Join(lines[last.from..n], '\n') + "";
    JoinConcat(lines[..last.from], lines[last.from..n]);
    assert lines[..last.from] + lines[last.from..n] == lines;
  }

  /** One span per file, in order, disjoint, non-empty and within the consumed lines; the ids count
      the files, and each patch is exactly the source lines of its span. */
  lemma SpansAreSlices(patch: string, maximumLines: nat, maximumBytes: nat)
    requires maximumLines > 0 && maximumBytes > 0
    ensures var input := Limited(patch, maximumBytes);
            var lines := Split(input, '\n');
            var spans := FinalState(patch, maximumLines, maximumBytes).spans;
            var files := Parsed(patch, maximumLines, maximumBytes).files;
            && |files| == |spans| && Ordered(spans) && InBounds(spans, Consumed(LineCount(lines), maximumLines))
            && forall k :: 0 <= k < |files| ==>
                 files[k].id == k && files[k].patch == FilePatch(input, lines, LineCount(lines), spans[k])
  {
    hide FinalState;
    FinalSound(patch, maximumLines, maximumBytes);
  }

  lemma FinishTiles(s: State, n: nat)
    requires Tiled(s)
    ensures Chain(Finish(s, n).spans, 0, n)
  {
    FinishFileMoves(s, n);
    FinishFileMoves(MarkPartial(s), n);
    assert (s.spans + [Span(s.fileStart, n)])[..|s.spans|] == s.spans;
  }

  /** When line 0 opens a file and no combined diff is consumed, the shown patches put together are the
      consumed text byte for byte, whichever limit cut it. */
  lemma PatchesTileInput(patch: string, maximumLines: nat, maximumBytes: nat)
    requires maximumLines > 0 && maximumBytes > 0
    requires var lines := Split(Limited(patch, maximumBytes), '\n');
             var count := LineCount(lines);
             count > 0 ==> Opens(Chomp(lines[0]), NextLine(lines, count, 0))
                           && NoCombined(lines, Consumed(count, maximumLines))
    ensures Patches(Parsed(patch, maximumLines, maximumBytes).files) == ConsumedText(patch, maximumLines, maximumBytes)
  {
    hide Opens, NoCombined, FinalState, FilePatch, Limited, FirstLines;
    var input := Limited(patch, maximumBytes);
    var n := Consumed(LineCount(Split(input, '\n')), maximumLines);
    ConsumedLines(input, maximumLines);
    if n > 0 {
      FinalChain(patch, maximumLines, maximumBytes);
      FinalSound(patch, maximumLines, maximumBytes);
      var final := FinalState(patch, maximumLines, maximumBytes);
      ChainShowsInput(final.files, final.spans, input, n);
    } else {
      EmptyFinal(patch, maximumLines, maximumBytes);
    }
  }

  lemma FinalChain(patch: string, maximumLines: nat, maximumBytes: nat)
    requires var lines := Split(Limited(patch, maximumBytes), '\n');
             var count := LineCount(lines);
             Consumed(count, maximumLines) > 0 && Opens(Chomp(lines[0]), NextLine(lines, count, 0))
             && NoCombined(lines, Consumed(count, maximumLines))
    ensures var lines := Split(Limited(patch, maximumBytes), '\n');
            Chain(FinalState(patch, maximumLines, maximumBytes).spans, 0, Consumed(LineCount(lines), maximumLines))
  {
    hide Opens, NoCombined, Tiled, Run, Finish, Limited;
    var lines := Split(Limited(patch, maximumBytes), '\n');
    var count := LineCount(lines);
    var n := Consumed(count, maximumLines);
    RunTiles(lines, count, n);
    var s := Run(lines, count, n);
    TruncatedTiles(s, n < count || |patch| > maximumBytes);
    FinishTiles(s.(truncated := n < count || |patch| > maximumBytes), n);
  }

  lemma ConsumedLines(input: string, maximumLines: nat)
    ensures FirstLines(input, Consumed(LineCount(Split(input, '\n')), maximumLines)) == FirstLines(input, maximumLines)
  {
    hide FirstLines;
    var lines := Split(input, '\n');
    FirstLinesAreUnlines(input, Consumed(LineCount(lines), maximumLines));
    FirstLinesAreUnlines(input, maximumLines);
    if LineCount(lines) < |lines| { WholeInput(input); }
  }

  lemma TruncatedTiles(s: State, truncated: bool)
    requires Tiled(s)
    ensures Tiled(s.(truncated := truncated))
  {
  }

  lemma EmptyFinal(patch: string, maximumLines: nat, maximumBytes: nat)
    requires maximumLines > 0 && LineCount(Split(Limited(patch, maximumBytes), '\n')) == 0
    ensures FinalState(patch, maximumLines, maximumBytes).files == []
    ensures FirstLines(Limited(patch, maximumBytes), 0) == ""
  {
  }

  lemma WholeInput(input: string)
    requires var lines := Split(input, '\n'); lines[|lines| - 1] == ""
    ensures var lines := Split(input, '\n'); Unlines(lines[..|lines| - 1]) == input
  {
    var lines := Split(input, '\n');
    JoinOfSplit(input, '\n');
    JoinConcat(lines[..|lines| - 1], lines[|lines| - 1..]);
    assert lines[..|lines| - 1] + lines[|lines| - 1..] == lines;
  }

  lemma {:induction false} SidesByKind(lines: seq<Line>)
    ensures SideLines(lines, true) == CountKind(lines, Context) + CountKind(lines, Deletion)
    ensures SideLines(lines, false) == CountKind(lines, Context) + CountKind(lines, Addition)
  {
    if lines != [] { SidesByKind(lines[..|lines| - 1]); }
  }

  /** The number of lines the headers say the file grew by. */
  function HeaderGain(hunks: seq<Hunk>): int {
    if hunks == [] then 0
    else HeaderGain(hunks[..|hunks| - 1]) + hunks[|hunks| - 1].newCount - hunks[|hunks| - 1].oldCount
  }

  lemma {:induction false} ExactGain(hunks: seq<Hunk>)
    requires forall k :: 0 <= k < |hunks| ==> Exact(hunks[k])
    ensures TotalKind(hunks, Addition) - TotalKind(hunks, Deletion) == HeaderGain(hunks)
  {
    if hunks != [] {
      ExactGain(hunks[..|hunks| - 1]);
      SidesByKind(hunks[|hunks| - 1].lines);
    }
  }

  lemma {:induction false} NumberedAt(lines: seq<Line>, oldStart: int, newStart: int, j: nat)
    requires Numbered(lines, oldStart, newStart) && j < |lines|
    ensures lines[j].oldLine == Number(lines[j].kind, true, oldStart, SideLines(lines[..j], true))
    ensures lines[j].newLine == Number(lines[j].kind, false, newStart, SideLines(lines[..j], false))
    ensures OnSide(lines[j].kind, true) ==> SideLines(lines[..j], true) < SideLines(lines, true)
    ensures OnSide(lines[j].kind, false) ==> SideLines(lines[..j], false) < SideLines(lines, false)
  {
    if j < |lines| - 1 {
      NumberedAt(lines[..|lines| - 1], oldStart, newStart, j);
      assert lines[..|lines| - 1][..j] == lines[..j];
    }
  }

  /** In every hunk of every file old and new numbers run on from the header's starts within its counts, and
      so never pass the largest integer; and a file not marked partial has exactly the lines its headers
      count, so additions less deletions is the gain the headers state. */
  lemma CountsAreExact(patch: string, maximumLines: nat, maximumBytes: nat, k: nat)
    requires maximumLines > 0 && maximumBytes > 0
    requires k < |Parsed(patch, maximumLines, maximumBytes).files|
    ensures var file := Parsed(patch, maximumLines, maximumBytes).files[k];
            && (forall h, j :: 0 <= h < |file.hunks| && 0 <= j < |file.hunks[h].lines| ==>
                  var hunk := file.hunks[h];
                  var line := hunk.lines[j];
                  && line.oldLine == Number(line.kind, true, hunk.oldStart, SideLines(hunk.lines[..j], true))
                  && line.newLine == Number(line.kind, false, hunk.newStart, SideLines(hunk.lines[..j], false))
                  && (line.oldLine.Some? ==> line.oldLine.value < hunk.oldStart + hunk.oldCount)
                  && (line.newLine.Some? ==> line.newLine.value < hunk.newStart + hunk.newCount))
            && (forall h :: 0 <= h < |file.hunks| ==> Fitting(file.hunks[h]))
            && (!file.isPartial ==>
                  && (forall h :: 0 <= h < |file.hunks| ==> Exact(file.hunks[h]))
                  && TotalKind(file.hunks, Addition) - TotalKind(file.hunks, Deletion) == HeaderGain(file.hunks))
  {
    hide FinalState, Limited, FilePatch;
    var file := Parsed(patch, maximumLines, maximumBytes).files[k];
    FinalSound(patch, maximumLines, maximumBytes);
    var parsed := FinalState(patch, maximumLines, maximumBytes).files[k];
    assert SoundFile(parsed) && file.hunks == parsed.hunks && file.isPartial == parsed.isPartial;
    if !file.isPartial { ExactGain(file.hunks); }
    forall h, j | 0 <= h < |file.hunks| && 0 <= j < |file.hunks[h].lines|
      ensures var hunk := file.hunks[h];
              var line := hunk.lines[j];
              && line.oldLine == Number(line.kind, true, hunk.oldStart, SideLines(hunk.lines[..j], true))
              && line.newLine == Number(line.kind, false, hunk.newStart, SideLines(hunk.lines[..j], false))
              && (line.oldLine.Some? ==> line.oldLine.value < hunk.oldStart + hunk.oldCount)
              && (line.newLine.Some? ==> line.newLine.value < hunk.newStart + hunk.newCount)
    {
      assert Fitting(file.hunks[h]);
      NumberedAt(file.hunks[h].lines, file.hunks[h].oldStart, file.hunks[h].newStart, j);
    }
  }
}
