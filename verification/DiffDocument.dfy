/** The rows a parsed patch is shown as. */
module DiffDocument {
  import opened Wrappers

  datatype Kind = Context | Addition | Deletion | NoNewline

  datatype Line = Line(id: nat, kind: Kind, text: string, oldLine: Option<int>, newLine: Option<int>)

  datatype Hunk = Hunk(id: nat, header: string, oldStart: nat, oldCount: nat, newStart: nat, newCount: nat,
                       lines: seq<Line>)

  datatype File = File(id: nat, oldPath: Option<string>, newPath: Option<string>, isBinary: bool, isPartial: bool,
                       hunks: seq<Hunk>, patch: string)

  /** Source lines `from` up to but not including `to`. */
  datatype Span = Span(from: nat, to: nat)

  datatype ParsedDiff = ParsedDiff(files: seq<File>, isTruncated: bool, hasUnsupportedContent: bool)

  function CountKind(lines: seq<Line>, kind: Kind): nat {
    if lines == [] then 0
    else CountKind(lines[..|lines| - 1], kind) + (if lines[|lines| - 1].kind == kind then 1 else 0)
  }

  /** `UnifiedDiffFile.additions` and `.deletions`. */
  function TotalKind(hunks: seq<Hunk>, kind: Kind): nat {
    if hunks == [] then 0
    else TotalKind(hunks[..|hunks| - 1], kind) + CountKind(hunks[|hunks| - 1].lines, kind)
  }
}
