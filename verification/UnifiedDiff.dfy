/** Parsing a whole patch within a line limit and a byte limit. */
module UnifiedDiff {
  import opened Text
  import opened DiffDocument
  import opened PatchReader

  /** The length up to and including the last line feed, 0 without one. */
  function AfterLastLineFeed(s: string): (n: nat)
    ensures n <= |s| && (n > 0 ==> s[n - 1] == '\n')
    ensures forall i :: n <= i < |s| ==> s[i] != '\n'
  {
    if s == "" then 0
    else if s[|s| - 1] == '\n' then |s|
    else AfterLastLineFeed(s[..|s| - 1])
  }

  /** What is kept of the patch: all of it, or the whole lines within the byte limit. */
  function Limited(patch: string, maximumBytes: nat): string {
    if |patch| <= maximumBytes then patch
    else patch[..AfterLastLineFeed(patch[..maximumBytes])]
  }

  function Chomp(line: string): string {
    if line != "" && line[|line| - 1] == '\r' then line[..|line| - 1] else line
  }

  function LineCount(lines: seq<string>): nat
    requires lines != []
  {
    if lines[|lines| - 1] == "" then |lines| - 1 else |lines|
  }

  function NextLine(lines: seq<string>, count: nat, i: nat): string
    requires count <= |lines|
  {
    if i + 1 < count then lines[i + 1] else ""
  }

  /** The reader after the first `n` lines. */
  function Run(lines: seq<string>, count: nat, n: nat): State
    requires n <= count <= |lines|
  {
    if n == 0 then START
    else Step(Run(lines, count, n - 1), Chomp(lines[n - 1]), NextLine(lines, count, n - 1), n - 1)
  }

  predicate EndsInLineFeed(s: string) {
    s != "" && s[|s| - 1] == '\n'
  }

  /** The source text of one file, line endings included. */
  function FilePatch(input: string, lines: seq<string>, count: nat, span: Span): string
    requires span.from <= span.to <= |lines|
  {
    Join(lines[span.from..span.to], '\n') + (if span.to < count || EndsInLineFeed(input) then "\n" else "")
  }

  ghost predicate InBounds(spans: seq<Span>, limit: nat) {
    forall k :: 0 <= k < |spans| ==> spans[k].from < spans[k].to <= limit
  }

  function WithPatches(files: seq<File>, spans: seq<Span>, input: string, lines: seq<string>,
      count: nat): (r: seq<File>)
    requires |files| == |spans| && InBounds(spans, |lines|)
    ensures |r| == |files|
    ensures forall k :: 0 <= k < |files| ==> r[k] == files[k].(patch := FilePatch(input, lines, count, spans[k]))
  {
    seq(|files|, k requires 0 <= k < |files| => files[k].(patch := FilePatch(input, lines, count, spans[k])))
  }

  /** How many lines are consumed. */
  function Consumed(count: nat, maximumLines: nat): nat {
    if count <= maximumLines then count else maximumLines
  }

  /** The final state of the reader over the kept input. */
  function FinalState(patch: string, maximumLines: nat, maximumBytes: nat): State {
    var lines := Split(Limited(patch, maximumBytes), '\n');
    var count := LineCount(lines);
    var n := Consumed(count, maximumLines);
    var s := Run(lines, count, n);
    Finish(s.(truncated := n < count || |patch| > maximumBytes), n)
  }
}
