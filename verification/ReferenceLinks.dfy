/** The link scanner, and the composer text built from the links it finds. */
module ReferenceLinks {
  import opened Wrappers
  import opened ReferenceText
  import opened ReferenceOffsets
  import opened ReferenceEditing
  import opened MarkdownLines
  import opened ReferenceScan

  const BACKSLASH: Unit := 92
  const OPEN_BRACKET: Unit := 91
  const CLOSE_BRACKET: Unit := 93
  const OPEN_PARENTHESIS: Unit := 40
  const CLOSE_PARENTHESIS: Unit := 41
  const EXCLAMATION: Unit := 33

  /** "<!--" and "-->". */
  const COMMENT_START: Text := [60, 33, 45, 45]
  const COMMENT_END: Text := [45, 45, 62]

  /** A label is never empty. */
  type Name = t: Text | t != [] witness [64]

  datatype Decoded = Decoded(kind: Kind, name: Name)

  /** What a link's label and destination stand for, if they are a reference at all. */
  type Decoder = (Text, Text) -> Option<Decoded>

  datatype Link = Link(range: Range, decoded: Decoded)

  /** What the scanner does at an offset: where it goes on, and the link it found there. */
  datatype Move = Move(next: nat, link: Option<Link>)

  /** The bracket that closes the one before `position`; a backslash takes the next unit with it. */
  function Closing(units: Text, position: nat, depth: nat, open: Unit, close: Unit): (r: Option<nat>)
    ensures r.Some? ==> position <= r.value < |units| && units[r.value] == close
    decreases |units| - position
  {
    if position >= |units| then None
    else if units[position] == BACKSLASH then Closing(units, position + 2, depth, open, close)
    else
      var deeper := if units[position] == open then depth + 1 else depth;
      if units[position] != close then Closing(units, position + 1, deeper, open, close)
      else if deeper == 0 then Some(position)
      else Closing(units, position + 1, deeper - 1, open, close)
  }

  /** The length of the run of backticks at an offset. */
  function Ticks(units: Text, i: nat): (n: nat)
    ensures i <= |units| ==> i + n <= |units|
    ensures i < |units| && units[i] == BACKTICK ==> n > 0
    decreases |units| - i
  {
    if i < |units| && units[i] == BACKTICK then 1 + Ticks(units, i + 1) else 0
  }

  /** Behind the next run of exactly `count` backticks. */
  function TicksClose(units: Text, next: nat, count: nat): (r: Option<nat>)
    ensures r.Some? ==> next <= r.value <= |units|
    decreases |units| - next
  {
    if next >= |units| then None
    else if units[next] != BACKTICK then TicksClose(units, next + 1, count)
    else if Ticks(units, next) == count then Some(next + count)
    else TicksClose(units, next + Ticks(units, next), count)
  }

  predicate StandsAt(units: Text, i: nat, pattern: Text) {
    i + |pattern| <= |units| && units[i..i + |pattern|] == pattern
  }

  function FindFrom(units: Text, i: nat, pattern: Text): (r: Option<nat>)
    ensures r.Some? ==> i <= r.value && StandsAt(units, r.value, pattern)
    decreases |units| - i
  {
    if i + |pattern| > |units| then None
    else if StandsAt(units, i, pattern) then Some(i)
    else FindFrom(units, i + 1, pattern)
  }

  /** The code range an offset lies in. */
  function Covering(code: seq<Range>, i: int): Option<Range> {
    if code == [] then None
    else if code[0].location <= i < code[0].Max() then Some(code[0])
    else Covering(code[1..], i)
  }

  lemma {:induction false} CoveringIs(code: seq<Range>, i: int)
    ensures Covering(code, i).Some? ==> Covering(code, i).value in code
                                        && Covering(code, i).value.location <= i < Covering(code, i).value.Max()
    ensures Covering(code, i).None? ==> forall k :: 0 <= k < |code| ==> !(code[k].location <= i < code[k].Max())
  {
    if code != [] { CoveringIs(code[1..], i); }
  }

  predicate ImageAt(units: Text, i: nat)
    requires i < |units|
  {
    units[i] == EXCLAMATION && i + 1 < |units| && units[i + 1] == OPEN_BRACKET
  }

  /** A link or an image that starts at `i`; an image is stepped over and never a reference. */
  function LinkAt(units: Text, decode: Decoder, i: nat): (m: Move)
    requires i < |units|
    ensures i < m.next <= |units|
    ensures m.link.Some? ==> m.link.value.range.location == i && m.link.value.range.Max() == m.next
                             && units[i] == OPEN_BRACKET && units[m.next - 1] == CLOSE_PARENTHESIS
  {
    var image := ImageAt(units, i);
    if units[i] != OPEN_BRACKET && !image then Move(i + 1, None)
    else
      var left := if image then i + 1 else i;
      var right := Closing(units, left + 1, 0, OPEN_BRACKET, CLOSE_BRACKET);
      if right.None? || right.value + 1 >= |units| || units[right.value + 1] != OPEN_PARENTHESIS then Move(i + 1, None)
      else
        var end := Closing(units, right.value + 2, 0, OPEN_PARENTHESIS, CLOSE_PARENTHESIS);
        if end.None? then Move(i + 1, None)
        else
          var decoded := decode(units[left + 1..right.value], units[right.value + 2..end.value]);
          if image || decoded.None? then Move(end.value + 1, None)
          else Move(end.value + 1, Some(Link(Range(i, end.value + 1 - i), decoded.value)))
  }

  /** Where a comment ends that starts at `i`. */
  function CommentEnd(units: Text, i: nat): nat {
    var end := FindFrom(units, i + 4, COMMENT_END);
    if end.Some? then end.value + 3 else |units|
  }

  function MoveAt(units: Text, code: seq<Range>, decode: Decoder, i: nat): (m: Move)
    requires i < |units|
    ensures i < m.next
    ensures m.link.Some? ==> m.link.value.range == Range(i, m.next - i) && m.next <= |units|
                             && Covering(code, i).None? && units[i] == OPEN_BRACKET
  {
    var inside := Covering(code, i);
    CoveringIs(code, i);
    if inside.Some? then Move(inside.value.Max(), None)
    else if units[i] == BACKSLASH then Move(i + 2, None)
    else if units[i] == BACKTICK then
      var count := Ticks(units, i);
      Move(TicksClose(units, i + count, count).GetOr(i + count), None)
    else if StandsAt(units, i, COMMENT_START) then Move(CommentEnd(units, i), None)
    else LinkAt(units, decode, i)
  }

  function LinksFrom(units: Text, code: seq<Range>, decode: Decoder, i: nat): seq<Link>
    decreases |units| - i
  {
    if i >= |units| then []
    else
      var m := MoveAt(units, code, decode, i);
      (if m.link.Some? then [m.link.value] else []) + LinksFrom(units, code, decode, m.next)
  }

  /** "zeron-invoke:" and "zeron-file:" in UTF-16. */
  const INVOKE: Text := [122, 101, 114, 111, 110, 45, 105, 110, 118, 111, 107, 101, 58]
  const FILE: Text := [122, 101, 114, 111, 110, 45, 102, 105, 108, 101, 58]

  ghost predicate Contains(units: Text, pattern: Text) {
    exists i: nat :: StandsAt(units, i, pattern)
  }

  /** Only destinations of the two schemes are references. */
  ghost predicate TwoSchemes(decode: Decoder) {
    forall label', destination :: decode(label', destination).Some? ==> INVOKE <= destination || FILE <= destination
  }

  function Links(text: Text, decode: Decoder): seq<Link> {
    LinksFrom(text, CodeRanges(text), decode, 0)
  }

  function LinkRanges(links: seq<Link>): (r: seq<Range>)
    ensures |r| == |links| && forall k :: 0 <= k < |r| ==> r[k] == links[k].range
  {
    seq(|links|, k requires 0 <= k < |links| => links[k].range)
  }

  /** The links found are in bounds, in order and disjoint, and none starts in a code range. */
  lemma {:induction false} LinksAreSorted(units: Text, code: seq<Range>, decode: Decoder, i: nat)
    ensures var r := LinkRanges(LinksFrom(units, code, decode, i));
            && Sorted(r) && Within(r, |units|)
            && forall k :: 0 <= k < |r| ==> i <= r[k].location && Covering(code, r[k].location).None?
    decreases |units| - i
  {
    hide MoveAt, Covering;
    if i < |units| {
      var m := MoveAt(units, code, decode, i);
      LinksAreSorted(units, code, decode, m.next);
      var rest := LinkRanges(LinksFrom(units, code, decode, m.next));
      var all := LinkRanges(LinksFrom(units, code, decode, i));
      if m.link.Some? {
        assert forall k :: 0 <= k < |all| ==> all[k] == (if k == 0 then m.link.value.range else rest[k - 1]);
      } else {
        assert all == rest;
      }
    }
  }

  lemma PatternInside(units: Text, from: nat, to: nat, pattern: Text)
    requires from <= to <= |units| && pattern <= units[from..to]
    ensures StandsAt(units, from, pattern)
  {
    assert units[from..to][..|pattern|] == units[from..from + |pattern|];
  }

  lemma LinkNeedsScheme(units: Text, decode: Decoder, i: nat)
    requires i < |units| && TwoSchemes(decode) && LinkAt(units, decode, i).link.Some?
    ensures Contains(units, INVOKE) || Contains(units, FILE)
  {
    var right := Closing(units, i + 1, 0, OPEN_BRACKET, CLOSE_BRACKET).value;
    var end := Closing(units, right + 2, 0, OPEN_PARENTHESIS, CLOSE_PARENTHESIS).value;
    assert decode(units[i + 1..right], units[right + 2..end]).Some?;
    if INVOKE <= units[right + 2..end] {
      PatternInside(units, right + 2, end, INVOKE);
    } else {
      PatternInside(units, right + 2, end, FILE);
    }
  }

  /** The early return is sound: a text that names neither scheme has no references to find. */
  lemma {:induction false} NoSchemeNoLinks(units: Text, code: seq<Range>, decode: Decoder, i: nat)
    requires TwoSchemes(decode) && !Contains(units, INVOKE) && !Contains(units, FILE)
    ensures LinksFrom(units, code, decode, i) == []
    decreases |units| - i
  {
    hide LinkAt, Contains, Covering, Ticks, TicksClose, StandsAt, FindFrom;
    if i < |units| {
      if LinkAt(units, decode, i).link.Some? { LinkNeedsScheme(units, decode, i); }
      NoSchemeNoLinks(units, code, decode, MoveAt(units, code, decode, i).next);
    }
  }

  method FindClosing(units: Text, start: nat, open: Unit, close: Unit) returns (r: Option<nat>)
    ensures r == Closing(units, start + 1, 0, open, close)
  {
    var position, depth := start + 1, 0;
    while position < |units|
      invariant Closing(units, start + 1, 0, open, close) == Closing(units, position, depth, open, close)
      decreases |units| - position
    {
      if units[position] == BACKSLASH {
        position := position + 2;
        continue;
      }
      if units[position] == open { depth := depth + 1; }
      if units[position] == close {
        if depth == 0 { return Some(position); }
        depth := depth - 1;
      }
      position := position + 1;
    }
    r := None;
  }

  method CountTicks(units: Text, start: nat) returns (count: nat)
    requires start < |units| && units[start] == BACKTICK
    ensures count == Ticks(units, start)
  {
    count := 1;
    while start + count < |units| && units[start + count] == BACKTICK
      invariant start + count <= |units|
      invariant Ticks(units, start) == count + Ticks(units, start + count)
    {
      count := count + 1;
    }
  }

  /** Behind the code span that starts at `index`, or behind its backticks when it is never closed. */
  method SkipCodeSpan(units: Text, index: nat) returns (next: nat)
    requires index < |units| && units[index] == BACKTICK
    ensures var count := Ticks(units, index); next == TicksClose(units, index + count, count).GetOr(index + count)
  {
    var count := CountTicks(units, index);
    next := index + count;
    while next < |units|
      invariant TicksClose(units, index + count, count) == TicksClose(units, next, count)
      decreases |units| - next
    {
      if units[next] != BACKTICK {
        next := next + 1;
        continue;
      }
      var size := CountTicks(units, next);
      if size == count { return next + size; }
      next := next + size;
    }
    next := index + count;
  }

  /** The part of the scanner that reads a link or steps over one unit. */
  method ReadLink(units: Text, decode: Decoder, index: nat) returns (next: nat, link: Option<Link>)
    requires index < |units|
    ensures Move(next, link) == LinkAt(units, decode, index)
  {
    hide Closing;
    var image := ImageAt(units, index);
    next, link := index + 1, None;
    if units[index] == OPEN_BRACKET || image {
      var left := if image then index + 1 else index;
      var right := FindClosing(units, left, OPEN_BRACKET, CLOSE_BRACKET);
      if right.Some? && right.value + 1 < |units| && units[right.value + 1] == OPEN_PARENTHESIS {
        var end := FindClosing(units, right.value + 1, OPEN_PARENTHESIS, CLOSE_PARENTHESIS);
        if end.Some? {
          var decoded := decode(units[left + 1..right.value], units[right.value + 2..end.value]);
          if !image && decoded.Some? { link := Some(Link(Range(index, end.value + 1 - index), decoded.value)); }
          next := end.value + 1;
        }
      }
    }
  }

  /** One turn of the scanner outside code ranges. */
  method ReadMove(units: Text, decode: Decoder, index: nat) returns (next: nat, link: Option<Link>)
    requires index < |units|
    ensures forall code :: Covering(code, index).None? ==> Move(next, link) == MoveAt(units, code, decode, index)
  {
    if units[index] == BACKSLASH {
      return index + 2, None;
    }
    if units[index] == BACKTICK {
      next := SkipCodeSpan(units, index);
      return next, None;
    }
    if StandsAt(units, index, COMMENT_START) {
      var end := FindFrom(units, index + 4, COMMENT_END);
      return if end.Some? then end.value + 3 else |units|, None;
    }
    next, link := ReadLink(units, decode, index);
  }

  /** Moving a pointer over sorted code ranges finds the one that covers an offset. */
  lemma PointerCovers(code: seq<Range>, fence: nat, i: int)
    requires Sorted(code) && fence <= |code|
    requires forall k :: 0 <= k < fence ==> code[k].Max() <= i
    requires fence < |code| ==> i < code[fence].Max()
    ensures Covering(code, i)
         == if fence < |code| && code[fence].location <= i then Some(code[fence]) else None
  {
    CoveringIs(code, i);
    var found := Covering(code, i);
    if found.Some? {
      var k :| 0 <= k < |code| && code[k] == found.value;
      assert k >= fence;
    }
  }

  /** The scanner: one pass with a pointer to the next code range. */
  method Scan(text: Text, decode: Decoder) returns (result: seq<Link>)
    ensures result == Links(text, decode)
  {
    hide MoveAt, Covering, CodeRanges;
    var code := ReadCodeRanges(text);
    CodesAreSorted(text);
    result := [];
    var index, fence := 0, 0;
    while index < |text|
      invariant fence <= |code| && forall k :: 0 <= k < fence ==> code[k].Max() <= index
      invariant Links(text, decode) == result + LinksFrom(text, code, decode, index)
      decreases |text| - index
    {
      while fence < |code| && index >= code[fence].Max()
        invariant fence <= |code| && forall k :: 0 <= k < fence ==> code[k].Max() <= index
      {
        fence := fence + 1;
      }
      PointerCovers(code, fence, index);
      ghost var m := MoveAt(text, code, decode, index);
      if fence < |code| && index >= code[fence].location {
        CoveredMove(text, code, decode, index);
        index := code[fence].Max();
        continue;
      }
      var next, link := ReadMove(text, decode, index);
      if link.Some? { result := result + [link.value]; }
      index := next;
    }
  }

  lemma CoveredMove(units: Text, code: seq<Range>, decode: Decoder, i: nat)
    requires i < |units| && Covering(code, i).Some? && Covering(code, i).value.Max() > i
    ensures MoveAt(units, code, decode, i) == Move(Covering(code, i).value.Max(), None)
  {
    CoveringIs(code, i);
  }

  lemma CodesAreSorted(text: Text)
    ensures Sorted(CodeRanges(text)) && Within(CodeRanges(text), |text|)
  {
    CodeIsSorted(text, 0, None, 0);
  }

  ghost predicate Extends(d: Composer, c: Composer) {
    c.source <= d.source && c.text <= d.text && c.references <= d.references
  }

  lemma PrefixSlice(a: Text, b: Text, i: int, j: int)
    requires a <= b && 0 <= i <= j <= |a|
    ensures b[i..j] == a[i..j]
  {
    assert b[..|a|] == a;
  }

  lemma KeptGap(c: Composer, d: Composer, k: nat)
    requires c.Valid() && Extends(d, c) && k < |c.references|
    ensures d.Gap(k) && d.Labelled(k)
  {
    assert c.Gap(k) && c.Labelled(k) && d.references[k] == c.references[k];
    if k > 0 { assert d.references[k - 1] == c.references[k - 1]; }
    PrefixSlice(c.source, d.source, c.SourceFrom(k), c.SourceTo(k));
    PrefixSlice(c.text, d.text, c.DisplayFrom(k), c.DisplayTo(k));
    PrefixSlice(c.text, d.text, c.references[k].display.location, c.references[k].display.Max());
  }

  /** Both texts end with the last reference, or are empty without one. */
  ghost predicate Closed(c: Composer) {
    if c.references == [] then c.source == [] && c.text == []
    else
      var last := c.references[|c.references| - 1];
      last.source.Max() == |c.source| && last.display.Max() == |c.text|
  }

  /** A valid composer for the first part of a source takes one more gap and reference. */
  lemma OneMoreReference(source: Text, c: Composer, link: Link)
    requires c.Valid() && Closed(c) && c.source <= source && |c.source| <= link.range.location
    requires link.range.length > 0 && link.range.Max() <= |source|
    ensures var gap := source[|c.source|..link.range.location];
            var display := Range(|c.text + gap|, |link.decoded.name|);
            var d := Composer(source[..link.range.Max()], c.text + gap + link.decoded.name,
                              c.references + [Reference(link.decoded.kind, link.range, display, link.decoded.name)]);
            d.Valid() && Closed(d)
  {
    var n := |c.references|;
    var gap := source[|c.source|..link.range.location];
    var display := Range(|c.text + gap|, |link.decoded.name|);
    var d := Composer(source[..link.range.Max()], c.text + gap + link.decoded.name,
                      c.references + [Reference(link.decoded.kind, link.range, display, link.decoded.name)]);
    assert Extends(d, c);
    assert d.SourceFrom(n) == |c.source| && d.DisplayFrom(n) == |c.text|;
    assert d.source[|c.source|..link.range.location] == gap == d.text[|c.text|..|c.text + gap|];
    assert d.text[|c.text + gap|..] == link.decoded.name;
    hide Composer.Gap, Composer.Labelled;
    assert d.Gap(n) && d.Labelled(n) && d.Gap(n + 1) by { NewGaps(d, n); }
    forall k | 0 <= k < n
      ensures d.Gap(k) && d.Labelled(k)
    {
      KeptGap(c, d, k);
    }
  }

  lemma NewGaps(d: Composer, n: nat)
    requires |d.references| == n + 1
    requires 0 <= d.SourceFrom(n) <= d.SourceTo(n) < d.references[n].source.Max() == |d.source|
    requires 0 <= d.DisplayFrom(n) <= d.DisplayTo(n) < d.references[n].display.Max() == |d.text|
    requires d.source[d.SourceFrom(n)..d.SourceTo(n)] == d.text[d.DisplayFrom(n)..d.DisplayTo(n)]
    requires d.text[d.references[n].display.location..] == d.references[n].name
    ensures d.Gap(n) && d.Labelled(n) && d.Gap(n + 1)
  {
  }

  /** The last gap closes the text. */
  lemma LastGap(source: Text, c: Composer)
    requires c.Valid() && Closed(c) && c.source <= source
    ensures Composer(source, c.text + source[|c.source|..], c.references).Valid()
  {
    var n := |c.references|;
    var d := Composer(source, c.text + source[|c.source|..], c.references);
    assert d.source[|c.source|..|d.source|] == d.text[|c.text|..|d.text|];
    assert d.Gap(n);
    hide Composer.Gap, Composer.Labelled;
    forall k | 0 <= k < n
      ensures d.Gap(k) && d.Labelled(k)
    {
      KeptGap(c, d, k);
    }
  }

  lemma ComposeSorted(source: Text, decode: Decoder)
    ensures Sorted(LinkRanges(Links(source, decode))) && Within(LinkRanges(Links(source, decode)), |source|)
  {
    hide LinksFrom;
    LinksAreSorted(source, CodeRanges(source), decode, 0);
  }

  lemma EmptyIsValid()
    ensures Composer([], [], []).Valid() && Closed(Composer([], [], []))
  {
  }

  /** `init`: the text is made of exactly the untouched gaps and the names of the links found. */
  method Compose(source: Text, decode: Decoder) returns (c: Composer)
    ensures c.Valid() && c.source == source
    ensures var links := Links(source, decode);
            |c.references| == |links| && forall k :: 0 <= k < |links| ==>
              c.references[k].source == links[k].range && c.references[k].kind == links[k].decoded.kind
              && c.references[k].name == links[k].decoded.name
  {
    hide Composer.Valid, Closed, Links, LinksFrom;
    var links := Scan(source, decode);
    EmptyIsValid();
    var ranges := LinkRanges(links);
    assert Sorted(ranges) && Within(ranges, |source|) by { ComposeSorted(source, decode); }
    assert source[..0] == [];
    var output: Text := [];
    var references: seq<Reference> := [];
    var end := 0;
    for i := 0 to |links|
      invariant |references| == i && 0 <= end <= |source|
      invariant end == (if i == 0 then 0 else links[i - 1].range.Max())
      invariant Composer(source[..end], output, references).Valid()
      invariant Closed(Composer(source[..end], output, references))
      invariant forall k :: 0 <= k < i ==>
        references[k].source == links[k].range && references[k].kind == links[k].decoded.kind
        && references[k].name == links[k].decoded.name
    {
      var link := links[i];
      assert ranges[i] == link.range;
      if i > 0 { assert ranges[i - 1] == links[i - 1].range; }
      OneMoreReference(source, Composer(source[..end], output, references), link);
      output := output + source[end..link.range.location];
      var range := Range(|output|, |link.decoded.name|);
      output := output + link.decoded.name;
      references := references + [Reference(link.decoded.kind, link.range, range, link.decoded.name)];
      end := link.range.Max();
    }
    LastGap(source, Composer(source[..end], output, references));
    c := Composer(source, output + source[end..], references);
  }
}
