/** What every line keeps: spans that tile the source, and hunks whose counts are exact. */
module DiffInvariants {
  import opened Wrappers
  import opened PatchHeaders
  import opened DiffDocument
  import opened PatchReader
  import opened UnifiedDiff

  predicate OnOldSide(kind: Kind) {
    kind == Context || kind == Deletion
  }

  predicate OnNewSide(kind: Kind) {
    kind == Context || kind == Addition
  }

  /** How many lines stand on the old, or on the new, side of the hunk. */
  function SideLines(lines: seq<Line>, oldSide: bool): nat {
    if lines == [] then 0
    else
      SideLines(lines[..|lines| - 1], oldSide) + (if OnSide(lines[|lines| - 1].kind, oldSide) then 1 else 0)
  }

  predicate OnSide(kind: Kind, oldSide: bool) {
    if oldSide then OnOldSide(kind) else OnNewSide(kind)
  }

  function Number(kind: Kind, oldSide: bool, start: int, before: nat): Option<int> {
    if OnSide(kind, oldSide) then Some(start + before) else None
  }

  /** Every line carries the next number of each side it is on, from the starts in the header. */
  predicate Numbered(lines: seq<Line>, oldStart: int, newStart: int) {
    lines == [] ||
    var front, last := lines[..|lines| - 1], lines[|lines| - 1];
    && Numbered(front, oldStart, newStart)
    && last.oldLine == Number(last.kind, true, oldStart, SideLines(front, true))
    && last.newLine == Number(last.kind, false, newStart, SideLines(front, false))
  }

  predicate Exact(hunk: Hunk) {
    SideLines(hunk.lines, true) == hunk.oldCount && SideLines(hunk.lines, false) == hunk.newCount
  }

  /** A hunk never holds more lines than its header says, and no number passes the largest integer. */
  ghost predicate Fitting(hunk: Hunk) {
    && Numbered(hunk.lines, hunk.oldStart, hunk.newStart)
    && SideLines(hunk.lines, true) <= hunk.oldCount && SideLines(hunk.lines, false) <= hunk.newCount
    && hunk.oldStart + hunk.oldCount <= INT_MAX && hunk.newStart + hunk.newCount <= INT_MAX
  }

  ghost predicate SoundFile(file: File) {
    && (forall k :: 0 <= k < |file.hunks| ==> Fitting(file.hunks[k]))
    && (!file.isPartial ==> forall k :: 0 <= k < |file.hunks| ==> Exact(file.hunks[k]))
  }

  ghost predicate SoundFiles(files: seq<File>) {
    forall k :: 0 <= k < |files| ==> files[k].id == k && SoundFile(files[k])
  }

  /** The countdown counters and running numbers agree with the lines of the open hunk. */
  ghost predicate SoundHunk(s: State) {
    if s.hunk.None? then s.oldRemaining == 0 && s.newRemaining == 0
    else
      && s.file.Some?
      && Fitting(s.hunk.value)
      && SideLines(s.hunk.value.lines, true) + s.oldRemaining == s.hunk.value.oldCount
      && SideLines(s.hunk.value.lines, false) + s.newRemaining == s.hunk.value.newCount
      && s.oldLine == s.hunk.value.oldStart + SideLines(s.hunk.value.lines, true)
      && s.newLine == s.hunk.value.newStart + SideLines(s.hunk.value.lines, false)
  }

  ghost predicate SoundHunks(s: State) {
    && SoundHunk(s)
    && SoundFiles(s.files)
    && (s.file.Some? ==> s.file.value.id == |s.files| && SoundFile(s.file.value))
  }

  ghost predicate Ordered(spans: seq<Span>) {
    forall j, k :: 0 <= j < k < |spans| ==> spans[j].to <= spans[k].from
  }

  /** Non-empty spans in order, before line `i`; the open file starts after the last of them. */
  ghost predicate SoundSpans(s: State, i: nat) {
    && |s.files| == |s.spans|
    && InBounds(s.spans, i)
    && Ordered(s.spans)
    && (s.file.Some? ==> s.fileStart < i && InBounds(s.spans, s.fileStart))
  }

  ghost predicate Sound(s: State, i: nat) {
    SoundHunks(s) && SoundSpans(s, i)
  }

  lemma FinishHunkSound(s: State, i: nat)
    requires Sound(s, i)
    ensures Sound(FinishHunk(s), i) && FinishHunk(s).hunk.None?
    ensures FinishHunk(s).file.Some? == s.file.Some?
    ensures FinishHunk(s).fileStart == s.fileStart && FinishHunk(s).spans == s.spans
  {
    if s.hunk.Some? {
      var f := FinishHunk(s).file.value;
      assert f.hunks == s.file.value.hunks + [s.hunk.value];
      assert !f.isPartial ==> Exact(s.hunk.value);
    }
  }

  lemma FinishFileSound(s: State, i: nat)
    requires Sound(s, i)
    ensures Sound(FinishFile(s, i), i) && FinishFile(s, i).file.None?
  {
    FinishHunkSound(s, i);
  }

  lemma AppendFits(hunk: Hunk, line: Line)
    requires Fitting(hunk)
    requires line.oldLine == Number(line.kind, true, hunk.oldStart, SideLines(hunk.lines, true))
    requires line.newLine == Number(line.kind, false, hunk.newStart, SideLines(hunk.lines, false))
    requires OnOldSide(line.kind) ==> SideLines(hunk.lines, true) < hunk.oldCount
    requires OnNewSide(line.kind) ==> SideLines(hunk.lines, false) < hunk.newCount
    ensures Fitting(hunk.(lines := hunk.lines + [line]))
    ensures SideLines(hunk.lines + [line], true)
         == SideLines(hunk.lines, true) + (if OnOldSide(line.kind) then 1 else 0)
    ensures SideLines(hunk.lines + [line], false)
         == SideLines(hunk.lines, false) + (if OnNewSide(line.kind) then 1 else 0)
  {
    assert (hunk.lines + [line])[..|hunk.lines|] == hunk.lines;
  }

  /** The open hunk takes one more line; a display too long for one row marks the file. */
  lemma AppendSound(s: State, kind: Kind, text: string, oldLine: Option<int>, newLine: Option<int>, i: nat)
    requires Sound(s, i) && s.hunk.Some?
    ensures var t := AppendLine(s, kind, text, oldLine, newLine, i);
            && t.hunk == Some(s.hunk.value.(lines := s.hunk.value.lines
                                            + [Line(i, kind, Display(text), oldLine, newLine)]))
            && t == s.(hunk := t.hunk, file := t.file) && t.file.Some?
            && t.file.value.id == s.file.value.id && SoundFile(t.file.value)
  {
    hide Display;
    hide Exact, Fitting;
  }

  lemma BodySound(s: State, line: string, i: nat)
    requires Sound(s, i) && InHunk(s) && FitsHunk(s, line)
    ensures Sound(BodyLine(s, line, i), i + 1)
  {
    hide AppendLine, Display, SoundFile, SoundFiles, InBounds, Ordered, Fitting, SideLines;
    var hunk := s.hunk.value;
    var kind := if line[0] == ' ' then Context else if line[0] == '-' then Deletion else Addition;
    var oldLine := Number(kind, true, hunk.oldStart, SideLines(hunk.lines, true));
    var newLine := Number(kind, false, hunk.newStart, SideLines(hunk.lines, false));
    AppendSound(s, kind, line[1..], oldLine, newLine, i);
    AppendFits(hunk, Line(i, kind, Display(line[1..]), oldLine, newLine));
    LaterBounds(s.spans, i);
  }

  lemma LaterBounds(spans: seq<Span>, i: nat)
    requires InBounds(spans, i)
    ensures InBounds(spans, i + 1)
  {
  }

  lemma MarkerSound(s: State, text: string, i: nat)
    requires Sound(s, i) && s.hunk.Some?
    ensures Sound(AppendLine(s, NoNewline, text, None, None, i), i + 1)
  {
    hide AppendLine, Display, SoundFile, SoundFiles, InBounds, Ordered;
    AppendSound(s, NoNewline, text, None, None, i);
    AppendFits(s.hunk.value, Line(i, NoNewline, Display(text), None, None));
    LaterBounds(s.spans, i);
  }

  lemma OpenHunkSound(s: State, line: string, i: nat)
    requires Sound(s, i)
    ensures Sound(OpenHunk(s, line, i), i + 1)
  {
    hide ParseHeader, FinishHunk;
    FinishHunkSound(s, i);
  }

  lemma OldPathSound(s: State, line: string, i: nat)
    requires Sound(s, i) && |line| >= 4
    ensures Sound(OpenOldPath(s, line, i), i + 1)
  {
    hide HeaderPath, FinishFile, Fitting, Exact;
    FinishFileSound(s, i);
  }

  /** Paths and the binary flag of the open file are free to change. */
  lemma RenamedSound(s: State, file: File, i: nat)
    requires Sound(s, i) && s.file.Some?
    requires file.id == s.file.value.id && file.hunks == s.file.value.hunks && file.isPartial == s.file.value.isPartial
    ensures Sound(s.(file := Some(file)), i + 1)
  {
    hide Fitting, Exact;
  }

  lemma BinarySound(s: State, i: nat)
    requires Sound(s, i)
    ensures var t := EnsureFile(s, i);
            Sound(t.(file := Some(t.file.value.(isBinary := true))), i + 1)
  {
    hide Fitting, Exact;
  }

  lemma MetadataSound(s: State, line: string, i: nat)
    requires Sound(s, i)
    ensures Sound(Metadata(s, line, i), i + 1)
  {
    hide PathOf, SoundHunk, SoundFiles, SoundFile, InBounds, Ordered;
    BinarySound(s, i);
    if s.file.Some? {
      forall file: File | file.id == s.file.value.id && file.hunks == s.file.value.hunks
                          && file.isPartial == s.file.value.isPartial
        ensures Sound(s.(file := Some(file)), i + 1)
      {
        RenamedSound(s, file, i);
      }
    } else {
      LaterBounds(s.spans, i);
    }
  }

  lemma HeadersSound(s: State, line: string, next: string, i: nat)
    requires Sound(s, i)
    ensures Sound(Headers(s, line, next, i), i + 1)
  {
    hide HeaderPath, OpenOldPath, Metadata, Fitting, Exact;
    if "--- " <= line && "+++ " <= next {
      OldPathSound(s, line, i);
    } else if !("+++ " <= line && s.expectsNewPath) {
      MetadataSound(s, line, i);
    }
  }

  lemma GitFileSound(s: State, line: string, i: nat)
    requires Sound(s, i) && |line| >= 11
    ensures Sound(OpenGitFile(s, line, i), i + 1)
  {
    hide GitHeaderPaths, FinishFile, Fitting, Exact;
    FinishFileSound(s, i);
  }

  lemma CombinedSound(s: State, i: nat)
    requires Sound(s, i)
    ensures Sound(FinishFile(s, i).(unsupported := true), i + 1)
  {
    hide FinishFile, Fitting, Exact;
    FinishFileSound(s, i);
  }

  /** A file that is marked partial promises less. */
  lemma PartialSound(s: State, i: nat)
    requires Sound(s, i)
    ensures Sound(MarkPartial(FinishHunk(s)), i) && Sound(MarkPartial(FinishHunk(s)).(unsupported := true), i + 1)
  {
    hide FinishHunk, Fitting, Exact;
    FinishHunkSound(s, i);
  }

  lemma StepSound(s: State, line: string, next: string, i: nat)
    requires Sound(s, i)
    ensures Sound(Step(s, line, next, i), i + 1)
  {
    hide Sound, OpenGitFile, FinishFile, FinishHunk, MarkPartial, OpenHunk, AppendLine, BodyLine, Headers, FitsHunk;
    if "diff --git " <= line {
      GitFileSound(s, line, i);
    } else if Combined(line) {
      CombinedSound(s, i);
    } else if "@@ " <= line {
      OpenHunkSound(s, line, i);
    } else if "@@" <= line {
      PartialSound(s, i);
    } else if s.hunk.Some? && line == NO_NEWLINE {
      MarkerSound(s, "No newline at end of file", i);
    } else if InHunk(s) && FitsHunk(s, line) {
      BodySound(s, line, i);
    } else {
      if InHunk(s) { PartialSound(s, i); }
      HeadersSound(if InHunk(s) then MarkPartial(FinishHunk(s)) else s, line, next, i);
    }
  }

  lemma {:induction false} RunSound(lines: seq<string>, count: nat, n: nat)
    requires n <= count <= |lines|
    ensures Sound(Run(lines, count, n), n)
  {
    hide Step, SoundHunks, SoundSpans;
    if n == 0 {
      StartSound();
    } else {
      RunSound(lines, count, n - 1);
      StepSound(Run(lines, count, n - 1), Chomp(lines[n - 1]), NextLine(lines, count, n - 1), n - 1);
    }
  }

  lemma StartSound()
    ensures Sound(START, 0)
  {
  }
}
