/** The line-driven state machine of the unified diff parser. `Step` says what one line does;
    the class updates its fields in place, as the original does, and agrees with `Step`. */
module PatchReader {
  import opened Wrappers
  import opened Text
  import opened PatchHeaders
  import opened DiffDocument

  const NO_NEWLINE := "\\ No newline at end of file"
  const MAXIMUM_LINE_BYTES: nat := 16384
  const DISPLAY_CHARACTERS: nat := 4096

  /** A space and the three UTF-8 bytes of U+2026. */
  const ELLIPSIS: string := [' ', 0xE2 as char, 0x80 as char, 0xA6 as char]

  datatype State = State(files: seq<File>, spans: seq<Span>, file: Option<File>, fileStart: nat, hunk: Option<Hunk>,
                         oldRemaining: nat, newRemaining: nat, oldLine: int, newLine: int,
                         truncated: bool, unsupported: bool, expectsNewPath: bool)

  const START := State([], [], None, 0, None, 0, 0, 0, 0, false, false, false)

  function NewFile(id: nat, oldPath: Option<string>, newPath: Option<string>): File {
    File(id, oldPath, newPath, false, false, [], "")
  }

  /** The first `limit` characters of UTF-8 text: whole characters, continuation bytes included. */
  function TakeCharacters(text: string, limit: nat): string {
    if text == "" then ""
    else if 0x80 <= text[0] as int < 0xC0 then [text[0]] + TakeCharacters(text[1..], limit)
    else if limit == 0 then ""
    else [text[0]] + TakeCharacters(text[1..], limit - 1)
  }

  function Display(text: string): string {
    if |text| > MAXIMUM_LINE_BYTES then TakeCharacters(text, DISPLAY_CHARACTERS) + ELLIPSIS else text
  }

  function MarkPartial(s: State): (t: State)
    ensures t.truncated == s.truncated
  {
    if s.file.None? then s else s.(file := Some(s.file.value.(isPartial := true)))
  }

  function FinishHunk(s: State): (t: State)
    ensures t.truncated == s.truncated
    ensures t.hunk.None? && t.file.Some? == s.file.Some?
  {
    if s.hunk.None? then s
    else
      var marked := if s.oldRemaining != 0 || s.newRemaining != 0 then MarkPartial(s) else s;
      var file := if marked.file.None? then None
                  else Some(marked.file.value.(hunks := marked.file.value.hunks + [s.hunk.value]));
      marked.(file := file, hunk := None, oldRemaining := 0, newRemaining := 0)
  }

  function FinishFile(s: State, end: nat): (t: State)
    ensures t.truncated == s.truncated
  {
    var t := FinishHunk(s);
    if t.file.None? then t
    else t.(files := t.files + [t.file.value], spans := t.spans + [Span(t.fileStart, end)], file := None)
  }

  function Finish(s: State, end: nat): State {
    FinishFile(if s.truncated then MarkPartial(s) else s, end)
  }

  function AppendLine(s: State, kind: Kind, text: string, oldLine: Option<int>, newLine: Option<int>,
      id: nat): (t: State)
    ensures t.truncated == s.truncated
  {
    var t := if |text| > MAXIMUM_LINE_BYTES then MarkPartial(s) else s;
    if t.hunk.None? then t
    else
      var hunk := t.hunk.value;
      t.(hunk := Some(hunk.(lines := hunk.lines + [Line(id, kind, Display(text), oldLine, newLine)])))
  }

  predicate InHunk(s: State) {
    s.hunk.Some? && (s.oldRemaining > 0 || s.newRemaining > 0)
  }

  predicate FitsHunk(s: State, line: string) {
    line != "" &&
    ((line[0] == ' ' && s.oldRemaining > 0 && s.newRemaining > 0) ||
     (line[0] == '-' && s.oldRemaining > 0) ||
     (line[0] == '+' && s.newRemaining > 0))
  }

  function BodyLine(s: State, line: string, id: nat): State
    requires FitsHunk(s, line)
  {
    if line[0] == ' ' then
      AppendLine(s, Context, line[1..], Some(s.oldLine), Some(s.newLine), id)
        .(oldLine := s.oldLine + 1, newLine := s.newLine + 1,
          oldRemaining := s.oldRemaining - 1, newRemaining := s.newRemaining - 1)
    else if line[0] == '-' then
      AppendLine(s, Deletion, line[1..], Some(s.oldLine), None, id)
        .(oldLine := s.oldLine + 1, oldRemaining := s.oldRemaining - 1)
    else
      AppendLine(s, Addition, line[1..], None, Some(s.newLine), id)
        .(newLine := s.newLine + 1, newRemaining := s.newRemaining - 1)
  }

  function OpenGitFile(s: State, line: string, i: nat): State
    requires |line| >= 11
  {
    var t := FinishFile(s, i);
    var paths := GitHeaderPaths(line[11..]);
    t.(file := Some(NewFile(|t.files|, paths.oldPath, paths.newPath)), fileStart := i, expectsNewPath := false)
  }

  function EnsureFile(s: State, i: nat): State {
    if s.file.Some? then s else s.(file := Some(NewFile(|s.files|, None, None)), fileStart := i)
  }

  function OpenHunk(s: State, line: string, i: nat): (t: State)
    ensures t.truncated == s.truncated
  {
    var t := FinishHunk(s);
    var header := ParseHeader(line);
    if header.None? then MarkPartial(t).(unsupported := true)
    else
      var old' := header.value.oldRange;
      var new' := header.value.newRange;
      EnsureFile(t, i).(hunk := Some(Hunk(i, line, old'.start, old'.count, new'.start, new'.count, [])),
                        oldLine := old'.start, newLine := new'.start,
                        oldRemaining := old'.count, newRemaining := new'.count)
  }

  function OpenOldPath(s: State, line: string, i: nat): State
    requires |line| >= 4
  {
    var fresh' := s.file.None? || s.file.value.hunks != [] || s.hunk.Some?;
    var t := if fresh' then
               var u := FinishFile(s, i);
               u.(file := Some(NewFile(|u.files|, None, None)), fileStart := i)
             else s;
    t.(file := Some(t.file.value.(oldPath := HeaderPath(line[4..]))), expectsNewPath := true)
  }

  function Metadata(s: State, line: string, i: nat): (t: State)
    ensures t.truncated == s.truncated
  {
    if "Binary files " <= line || line == "GIT binary patch" then
      var t := EnsureFile(s, i);
      t.(file := Some(t.file.value.(isBinary := true)))
    else if s.file.None? then s
    else if "rename from " <= line then s.(file := Some(s.file.value.(oldPath := Some(PathOf(line[12..])))))
    else if "rename to " <= line then s.(file := Some(s.file.value.(newPath := Some(PathOf(line[10..])))))
    else if "new file mode " <= line then s.(file := Some(s.file.value.(oldPath := None)))
    else if "deleted file mode " <= line then s.(file := Some(s.file.value.(newPath := None)))
    else s
  }

  /** A line that is neither an opener nor part of a hunk. */
  function Headers(s: State, line: string, next: string, i: nat): State {
    if "--- " <= line && "+++ " <= next then OpenOldPath(s, line, i)
    else if "+++ " <= line && s.expectsNewPath then
      var file := if s.file.None? then None else Some(s.file.value.(newPath := HeaderPath(line[4..])));
      s.(file := file, expectsNewPath := false)
    else Metadata(s, line, i)
  }

  predicate Combined(line: string) {
    "diff --cc " <= line || "diff --combined " <= line
  }

  /** What one source line does to the reader. */
  function Step(s: State, line: string, next: string, i: nat): State {
    if "diff --git " <= line then OpenGitFile(s, line, i)
    else if Combined(line) then FinishFile(s, i).(unsupported := true)
    else if "@@ " <= line then OpenHunk(s, line, i)
    else if "@@" <= line then MarkPartial(FinishHunk(s)).(unsupported := true)
    else if s.hunk.Some? && line == NO_NEWLINE then
      AppendLine(s, NoNewline, "No newline at end of file", None, None, i)
    else if InHunk(s) && FitsHunk(s, line) then BodyLine(s, line, i)
    else Headers(if InHunk(s) then MarkPartial(FinishHunk(s)) else s, line, next, i)
  }

  class Reader {
    var files: seq<File>
    var sourceSpans: seq<Span>
    var file: Option<File>
    var fileStartLine: nat
    var hunk: Option<Hunk>
    var oldRemaining: nat
    var newRemaining: nat
    var oldLine: int
    var newLine: int
    var truncated: bool
    var unsupported: bool
    var expectsNewPath: bool

    function Now(): State
      reads this
    {
      State(files, sourceSpans, file, fileStartLine, hunk, oldRemaining, newRemaining, oldLine, newLine,
            truncated, unsupported, expectsNewPath)
    }

    constructor ()
      ensures Now() == START
    {
      files, sourceSpans, file, fileStartLine, hunk := [], [], None, 0, None;
      oldRemaining, newRemaining, oldLine, newLine := 0, 0, 0, 0;
      truncated, unsupported, expectsNewPath := false, false, false;
    }

    method SetPartial()
      modifies `file
      ensures Now() == MarkPartial(old(Now()))
    {
      if file.Some? { file := Some(file.value.(isPartial := true)); }
    }

    method CloseHunk()
      modifies `file, `hunk, `oldRemaining, `newRemaining
      ensures Now() == FinishHunk(old(Now()))
    {
      if hunk.None? { return; }
      if oldRemaining != 0 || newRemaining != 0 { SetPartial(); }
      if file.Some? { file := Some(file.value.(hunks := file.value.hunks + [hunk.value])); }
      hunk := None;
      oldRemaining := 0;
      newRemaining := 0;
    }

    method CloseFile(endLine: nat)
      modifies this
      ensures Now() == FinishFile(old(Now()), endLine)
    {
      CloseHunk();
      if file.Some? {
        files := files + [file.value];
        sourceSpans := sourceSpans + [Span(fileStartLine, endLine)];
      }
      file := None;
    }

    method Append(kind: Kind, text: string, oldNumber: Option<int>, newNumber: Option<int>, id: nat)
      modifies `file, `hunk
      ensures Now() == AppendLine(old(Now()), kind, text, oldNumber, newNumber, id)
    {
      var oversized := |text| > MAXIMUM_LINE_BYTES;
      if oversized { SetPartial(); }
      var display := if oversized then TakeCharacters(text, DISPLAY_CHARACTERS) + ELLIPSIS else text;
      if hunk.Some? {
        hunk := Some(hunk.value.(lines := hunk.value.lines + [Line(id, kind, display, oldNumber, newNumber)]));
      }
    }

    method OpenFile(oldPath: Option<string>, newPath: Option<string>, sourceIndex: nat)
      modifies `file, `fileStartLine
      ensures Now() == old(Now()).(file := Some(NewFile(|files|, oldPath, newPath)), fileStart := sourceIndex)
    {
      file := Some(NewFile(|files|, oldPath, newPath));
      fileStartLine := sourceIndex;
    }

    method ConsumeHunkHeader(line: string, sourceIndex: nat)
      modifies this
      ensures Now() == OpenHunk(old(Now()), line, sourceIndex)
    {
      hide ParseHeader, FinishHunk;
      CloseHunk();
      var header := ParseHeader(line);
      if header.None? {
        SetPartial();
        unsupported := true;
        return;
      }
      if file.None? { OpenFile(None, None, sourceIndex); }
      var HunkHeader(oldRange, newRange) := header.value;
      hunk := Some(Hunk(sourceIndex, line, oldRange.start, oldRange.count, newRange.start, newRange.count, []));
      oldLine := oldRange.start;
      newLine := newRange.start;
      oldRemaining := oldRange.count;
      newRemaining := newRange.count;
    }

    method ConsumeBody(line: string, sourceIndex: nat)
      requires hunk.Some? && FitsHunk(Now(), line)
      modifies this
      ensures Now() == BodyLine(old(Now()), line, sourceIndex)
    {
      if line[0] == ' ' {
        Append(Context, line[1..], Some(oldLine), Some(newLine), sourceIndex);
        oldLine := oldLine + 1;
        newLine := newLine + 1;
        oldRemaining := oldRemaining - 1;
        newRemaining := newRemaining - 1;
      } else if line[0] == '-' {
        Append(Deletion, line[1..], Some(oldLine), None, sourceIndex);
        oldLine := oldLine + 1;
        oldRemaining := oldRemaining - 1;
      } else {
        Append(Addition, line[1..], None, Some(newLine), sourceIndex);
        newLine := newLine + 1;
        newRemaining := newRemaining - 1;
      }
    }

    method ConsumeMetadata(line: string, sourceIndex: nat)
      modifies this
      ensures Now() == Metadata(old(Now()), line, sourceIndex)
    {
      if "Binary files " <= line || line == "GIT binary patch" {
        if file.None? { OpenFile(None, None, sourceIndex); }
        file := Some(file.value.(isBinary := true));
      } else if file.Some? {
        if "rename from " <= line {
          var path := DecodePath(line[12..]);
          file := Some(file.value.(oldPath := Some(path)));
        } else if "rename to " <= line {
          var path := DecodePath(line[10..]);
          file := Some(file.value.(newPath := Some(path)));
        } else if "new file mode " <= line {
          file := Some(file.value.(oldPath := None));
        } else if "deleted file mode " <= line {
          file := Some(file.value.(newPath := None));
        }
      }
    }

    method ConsumeHeaders(line: string, next: string, sourceIndex: nat)
      modifies this
      ensures Now() == Headers(old(Now()), line, next, sourceIndex)
    {
      if "--- " <= line && "+++ " <= next {
        if file.None? || file.value.hunks != [] || hunk.Some? {
          CloseFile(sourceIndex);
          OpenFile(None, None, sourceIndex);
        }
        file := Some(file.value.(oldPath := HeaderPath(line[4..])));
        expectsNewPath := true;
      } else if "+++ " <= line && expectsNewPath {
        if file.Some? { file := Some(file.value.(newPath := HeaderPath(line[4..]))); }
        expectsNewPath := false;
      } else {
        ConsumeMetadata(line, sourceIndex);
      }
    }

    /** One source line; `next` is the line after it, or "" at the end. */
    method Consume(line: string, next: string, sourceIndex: nat)
      modifies this
      ensures Now() == Step(old(Now()), line, next, sourceIndex)
    {
      if "diff --git " <= line {
        CloseFile(sourceIndex);
        var paths := ReadGitHeader(line[11..]);
        OpenFile(paths.oldPath, paths.newPath, sourceIndex);
        expectsNewPath := false;
        return;
      }
      if "diff --cc " <= line || "diff --combined " <= line {
        CloseFile(sourceIndex);
        unsupported := true;
        return;
      }
      if "@@ " <= line {
        ConsumeHunkHeader(line, sourceIndex);
        return;
      }
      if "@@" <= line {
        CloseHunk();
        SetPartial();
        unsupported := true;
        return;
      }
      if hunk.Some? && line == NO_NEWLINE {
        Append(NoNewline, "No newline at end of file", None, None, sourceIndex);
        return;
      }
      if hunk.Some? && (oldRemaining > 0 || newRemaining > 0) {
        if FitsHunk(Now(), line) {
          ConsumeBody(line, sourceIndex);
          return;
        }
        CloseHunk();
        SetPartial();
      }
      ConsumeHeaders(line, next, sourceIndex);
    }

    method CloseAll(endLine: nat)
      modifies this
      ensures Now() == Finish(old(Now()), endLine)
    {
      if truncated { SetPartial(); }
      CloseFile(endLine);
    }
  }
}
