/** The parser's entry point, and what holds of its result for every patch and every limit. */
module ParsePatch {
  import opened Wrappers
  import opened Text
  import opened PatchHeaders
  import opened DiffDocument
  import opened PatchReader
  import opened UnifiedDiff
  import opened DiffInvariants

  lemma FinishSound(s: State, n: nat)
    requires Sound(s, n)
    ensures Sound(Finish(s, n), n) && Finish(s, n).file.None?
  {
    hide FinishFile, Fitting, Exact;
    var marked := if s.truncated then MarkPartial(s) else s;
    assert Sound(marked, n);
    FinishFileSound(marked, n);
  }

  lemma FinalSound(patch: string, maximumLines: nat, maximumBytes: nat)
    ensures var lines := Split(Limited(patch, maximumBytes), '\n');
            Sound(FinalState(patch, maximumLines, maximumBytes), Consumed(LineCount(lines), maximumLines))
  {
    hide Step, Finish, SoundHunks, SoundSpans;
    var lines := Split(Limited(patch, maximumBytes), '\n');
    var count := LineCount(lines);
    var n := Consumed(count, maximumLines);
    RunSound(lines, count, n);
    var s := Run(lines, count, n);
    TruncatedSound(s, n < count || |patch| > maximumBytes, n);
    FinishSound(s.(truncated := n < count || |patch| > maximumBytes), n);
  }

  lemma TruncatedSound(s: State, truncated: bool, n: nat)
    requires Sound(s, n)
    ensures Sound(s.(truncated := truncated), n)
  {
  }

  /** `UnifiedDiffParser.parse`. */
  function Parsed(patch: string, maximumLines: int, maximumBytes: int): ParsedDiff {
    if maximumLines <= 0 || maximumBytes <= 0 then ParsedDiff([], patch != "", false)
    else
      var input := Limited(patch, maximumBytes);
      var lines := Split(input, '\n');
      var s := FinalState(patch, maximumLines, maximumBytes);
      FinalSound(patch, maximumLines, maximumBytes);
      var files := WithPatches(s.files, s.spans, input, lines, LineCount(lines));
      ParsedDiff(files, s.truncated, s.unsupported || (files == [] && !s.truncated && !AllWhite(patch)))
  }

  lemma StepKeepsTruncated(s: State, line: string, next: string, i: nat)
    ensures Step(s, line, next, i).truncated == s.truncated
  {
    hide GitHeaderPaths, HeaderPath, NewFile, FinishFile, FinishHunk, MarkPartial, OpenHunk, Metadata, AppendLine;
  }

  lemma {:induction false} RunNotTruncated(lines: seq<string>, count: nat, n: nat)
    requires n <= count <= |lines|
    ensures !Run(lines, count, n).truncated
  {
    hide Step;
    if n > 0 {
      RunNotTruncated(lines, count, n - 1);
      StepKeepsTruncated(Run(lines, count, n - 1), Chomp(lines[n - 1]), NextLine(lines, count, n - 1), n - 1);
    }
  }

  /** The line loop: stops at the end of the lines, or at the line limit and says so. */
  method ConsumeLines(parser: Reader, lines: seq<string>, count: nat, maximumLines: nat) returns (index: nat)
    requires count <= |lines| && parser.Now() == START
    modifies parser
    ensures index == Consumed(count, maximumLines)
    ensures parser.Now() == Run(lines, count, index).(truncated := index < count)
  {
    hide Step;
    index := 0;
    while index < count
      invariant index <= count && index <= maximumLines
      invariant parser.Now() == Run(lines, count, index)
    {
      if index >= maximumLines {
        parser.truncated := true;
        break;
      }
      parser.Consume(Chomp(lines[index]), NextLine(lines, count, index), index);
      index := index + 1;
    }
    RunNotTruncated(lines, count, index);
  }

  method AttachPatches(parsed: seq<File>, spans: seq<Span>, input: string, lines: seq<string>, count: nat)
    returns (files: seq<File>)
    requires |parsed| == |spans| && InBounds(spans, |lines|)
    ensures files == WithPatches(parsed, spans, input, lines, count)
  {
    files := parsed;
    var fileIndex := 0;
    while fileIndex < |files|
      invariant 0 <= fileIndex <= |files| == |parsed|
      invariant forall k :: fileIndex <= k < |files| ==> files[k] == parsed[k]
      invariant forall k :: 0 <= k < fileIndex ==>
        files[k] == parsed[k].(patch := FilePatch(input, lines, count, spans[k]))
    {
      var span := spans[fileIndex];
      var original := Join(lines[span.from..span.to], '\n');
      if span.to < count || EndsInLineFeed(input) { original := original + "\n"; }
      files := files[fileIndex := files[fileIndex].(patch := original)];
      fileIndex := fileIndex + 1;
    }
  }

  method Parse(patch: string, maximumLines: int, maximumBytes: int) returns (result: ParsedDiff)
    ensures result == Parsed(patch, maximumLines, maximumBytes)
  {
    hide Step, Finish, SoundHunks, Run;
    if maximumLines <= 0 || maximumBytes <= 0 {
      return ParsedDiff([], patch != "", false);
    }
    var parser := new Reader();
    var limited := |patch| > maximumBytes;
    var input := Limited(patch, maximumBytes);
    var lines := Split(input, '\n');
    var count := LineCount(lines);
    var index := ConsumeLines(parser, lines, count, maximumLines);
    parser.truncated := parser.truncated || limited;
    parser.CloseAll(index);
    FinalSound(patch, maximumLines, maximumBytes);
    assert parser.Now() == FinalState(patch, maximumLines, maximumBytes);
    var files := AttachPatches(parser.files, parser.sourceSpans, input, lines, count);
    result := ParsedDiff(files, parser.truncated,
                         parser.unsupported || (files == [] && !parser.truncated && !AllWhite(patch)));
  }
}
