/** Finding the references of a source text: links outside code, comments and escapes. */
module ReferenceScan {
  import opened Wrappers
  import opened ReferenceText
  import opened ReferenceOffsets
  import opened ReferenceEditing
  import opened MarkdownLines

  /** An open fence and the offset of its first line. */
  datatype OpenFence = OpenFence(start: nat, fence: Fence)

  /** A range of code and whether fences delimit it. */
  datatype CodeRange = CodeRange(range: Range, fenced: bool)

  /** A line that can open or close a fence: at most three spaces and then a marker. */
  predicate MarkerLine(line: Text) {
    Run(line, SPACE) <= 3 && Content(line) != [] && FenceUnit(Content(line)[0])
  }

  function MarkerSize(line: Text): nat {
    if Content(line) == [] then 0 else Run(Content(line), Content(line)[0])
  }

  predicate ClosesFence(line: Text, fence: Fence) {
    Content(line) != [] && fence.marker == Content(line)[0] && MarkerSize(line) >= fence.count
    && AllBlank(Content(line)[MarkerSize(line)..])
  }

  predicate IndentedCode(line: Text) {
    Run(line, SPACE) >= 4 || (line != [] && line[0] == TAB)
  }

  function LineAt(raw: Text, index: nat): Text
    requires index < |raw|
  {
    TrimNewlines(raw[index..LineMax(raw, index)])
  }

  /** What the line at `index` does: the ranges it completes and the fence open behind it. */
  function CodeLine(raw: Text, index: nat, open: Option<OpenFence>): (seq<CodeRange>, Option<OpenFence>)
    requires index < |raw|
  {
    var max := LineMax(raw, index);
    var line := LineAt(raw, index);
    if MarkerLine(line) then
      if MarkerSize(line) < 3 then ([], open)
      else if open.None? then ([], Some(OpenFence(index, Fence(Content(line)[0], MarkerSize(line)))))
      else if ClosesFence(line, open.value.fence) then
        ([CodeRange(Range(open.value.start, max - open.value.start), true)], None)
      else ([], open)
    else if open.None? && IndentedCode(line) then ([CodeRange(Range(index, max - index), false)], open)
    else ([], open)
  }

  /** The code ranges from `index` on. */
  function CodeFrom(raw: Text, index: nat, open: Option<OpenFence>): seq<CodeRange>
    requires index <= |raw|
    decreases |raw| - index
  {
    if index == |raw| then
      if open.Some? then [CodeRange(Range(open.value.start, |raw| - open.value.start), true)] else []
    else
      var (done, open') := CodeLine(raw, index, open);
      done + CodeFrom(raw, LineMax(raw, index), open')
  }

  function PlainRanges(code: seq<CodeRange>): (r: seq<Range>)
    ensures |r| == |code| && forall k :: 0 <= k < |r| ==> r[k] == code[k].range
  {
    seq(|code|, k requires 0 <= k < |code| => code[k].range)
  }

  function CodeRanges(raw: Text): seq<Range> {
    PlainRanges(CodeFrom(raw, 0, None))
  }

  /** The scanner's variables for the open fence, as one value. */
  function OpenAs(start: Option<nat>, marker: Unit, count: nat): Option<OpenFence> {
    if start.Some? then Some(OpenFence(start.value, Fence(marker, count))) else None
  }

  /** One turn of the line loop. */
  method ReadCodeLine(raw: Text, index: nat, start: Option<nat>, marker: Unit, count: nat)
    returns (found: seq<Range>, start': Option<nat>, marker': Unit, count': nat)
    requires index < |raw|
    ensures var (done, open) := CodeLine(raw, index, OpenAs(start, marker, count));
            found == PlainRanges(done) && OpenAs(start', marker', count') == open
  {
    found, start', marker', count' := [], start, marker, count;
    var max := LineMax(raw, index);
    var line := LineAt(raw, index);
    var spaces := Run(line, SPACE);
    var content := Content(line);
    if spaces <= 3 && content != [] && FenceUnit(content[0]) {
      var size := Run(content, content[0]);
      if size >= 3 {
        if start.None? {
          start', marker', count' := Some(index), content[0], size;
        } else if marker == content[0] && size >= count && AllBlank(content[size..]) {
          found := [Range(start.value, max - start.value)];
          start' := None;
        }
      }
    } else if start.None? && (spaces >= 4 || (line != [] && line[0] == TAB)) {
      found := [Range(index, max - index)];
    }
  }

  method ReadCodeRanges(raw: Text) returns (ranges: seq<Range>)
    ensures ranges == CodeRanges(raw)
  {
    hide CodeLine, LineAt;
    ranges := [];
    var index := 0;
    var start: Option<nat> := None;
    var marker, count := BACKTICK, 0;
    while index < |raw|
      invariant index <= |raw|
      invariant CodeRanges(raw) == ranges + PlainRanges(CodeFrom(raw, index, OpenAs(start, marker, count)))
      decreases |raw| - index
    {
      ghost var open := OpenAs(start, marker, count);
      ghost var (done, open') := CodeLine(raw, index, open);
      var found;
      found, start, marker, count := ReadCodeLine(raw, index, start, marker, count);
      PlainConcat(done, CodeFrom(raw, LineMax(raw, index), open'));
      ranges := ranges + found;
      index := LineMax(raw, index);
    }
    if start.Some? { ranges := ranges + [Range(start.value, |raw| - start.value)]; }
  }

  lemma PlainConcat(a: seq<CodeRange>, b: seq<CodeRange>)
    ensures PlainRanges(a + b) == PlainRanges(a) + PlainRanges(b)
  {
  }

  /** A line completes at most one range, which ends with the line and began with it or at the fence. */
  lemma CodeLineShape(raw: Text, index: nat, open: Option<OpenFence>)
    requires index < |raw| && (open.Some? ==> open.value.start < index)
    ensures var (done, open') := CodeLine(raw, index, open);
            && |done| <= 1
            && (done != [] ==> open'.None? && done[0].range.Max() == LineMax(raw, index)
                               && done[0].range.location == (if open.Some? then open.value.start else index))
            && (open'.Some? ==> done == [] && open'.value.start == (if open.Some? then open.value.start else index))
  {
    hide MarkerLine, MarkerSize, IndentedCode, LineAt, ClosesFence;
  }

  lemma SortedBehind(a: seq<Range>, b: seq<Range>, from: nat, max: nat, length: nat)
    requires |a| <= 1 && Sorted(b) && Within(b, length) && forall k :: 0 <= k < |b| ==> max <= b[k].location
    requires a != [] ==> from <= a[0].location < a[0].Max() <= max
    requires from <= max <= length
    ensures Sorted(a + b) && Within(a + b, length) && forall k :: 0 <= k < |a + b| ==> from <= (a + b)[k].location
  {
    assert forall k :: 0 <= k < |a + b| ==> (a + b)[k] == (if k < |a| then a[k] else b[k - |a|]);
  }

  /** Code ranges are non-empty, in order and disjoint. */
  lemma {:induction false} CodeIsSorted(raw: Text, index: nat, open: Option<OpenFence>, from: nat)
    requires index <= |raw| && (if open.Some? then from <= open.value.start < index else from <= index)
    ensures var r := PlainRanges(CodeFrom(raw, index, open));
            Sorted(r) && Within(r, |raw|) && forall k :: 0 <= k < |r| ==> from <= r[k].location
    decreases |raw| - index
  {
    hide CodeLine, Sorted, Within, PlainRanges;
    if index < |raw| {
      var (done, open') := CodeLine(raw, index, open);
      var max := LineMax(raw, index);
      CodeLineShape(raw, index, open);
      PlainConcat(done, CodeFrom(raw, max, open'));
      if done == [] {
        CodeIsSorted(raw, max, open', from);
        EmptyPlain();
      } else {
        CodeIsSorted(raw, max, open', max);
        SortedBehind(PlainRanges(done), PlainRanges(CodeFrom(raw, max, open')), from, max, |raw|);
      }
    } else {
      LastIsSorted(raw, open, from);
    }
  }

  lemma EmptyPlain()
    ensures forall b: seq<Range> :: PlainRanges([]) + b == b
  {
  }

  lemma LastIsSorted(raw: Text, open: Option<OpenFence>, from: nat)
    requires if open.Some? then from <= open.value.start < |raw| else from <= |raw|
    ensures var r := PlainRanges(CodeFrom(raw, |raw|, open));
            Sorted(r) && Within(r, |raw|) && forall k :: 0 <= k < |r| ==> from <= r[k].location
  {
  }
}
