/** Selecting and editing in a text with references: an endpoint never stays inside a reference, and an
    edit of the editor's text becomes a splice of the source that keeps both texts in step. */
module ReferenceEditing {
  import opened Wrappers
  import opened ReferenceText
  import opened ReferenceOffsets

  predicate Inside(r: Range, x: int) {
    r.location < x < r.Max()
  }

  /** `first(where:)`. */
  function FirstAround(ranges: seq<Range>, x: int): Option<Range> {
    if ranges == [] then None
    else if Inside(ranges[0], x) then Some(ranges[0])
    else FirstAround(ranges[1..], x)
  }

  /** Where a caret inside a token goes: on in the direction it moved by one, else to the nearer end. */
  function Snap(token: Range, caret: int, previous: Option<Range>): int {
    var direction := if previous.Some? && previous.value.length == 0 then caret - previous.value.location else 0;
    if direction == 1 then token.Max()
    else if direction == -1 then token.location
    else if caret - token.location < token.length / 2 then token.location
    else token.Max()
  }

  function Expand(ranges: seq<Range>, start: int, end: int): (int, int) {
    if ranges == [] then (start, end)
    else
      var t := ranges[0];
      if start < t.Max() && end > t.location then Expand(ranges[1..], Min(start, t.location), MaxOf(end, t.Max()))
      else Expand(ranges[1..], start, end)
  }

  /** The two ends of a requested range, moved into the text. */
  function ClampedStart(range: Range, length: nat): nat {
    Clamp(range.location, length)
  }

  function ClampedEnd(range: Range, length: nat): (end: nat)
    ensures ClampedStart(range, length) <= end <= length
  {
    MaxOf(ClampedStart(range, length), Clamp(range.Max(), length))
  }

  function Selection(c: Composer, range: Range, previous: Option<Range>, inSource: bool): Range {
    var ranges := Ranges(c, inSource);
    var start := ClampedStart(range, Length(c, inSource));
    var end := ClampedEnd(range, Length(c, inSource));
    if start == end then
      var token := FirstAround(ranges, start);
      Range(if token.Some? then Snap(token.value, start, previous) else start, 0)
    else
      var ends := Expand(ranges, start, end);
      Range(ends.0, ends.1 - ends.0)
  }

  method Select(c: Composer, range: Range, previous: Option<Range>, inSource: bool) returns (selected: Range)
    ensures selected == Selection(c, range, previous, inSource)
  {
    var ranges := Ranges(c, inSource);
    var length := Length(c, inSource);
    var start, end := Clamp(range.location, length), Clamp(range.Max(), length);
    end := MaxOf(start, end);
    if start == end {
      var token := FirstAround(ranges, start);
      if token.Some? {
        var direction := if previous.Some? && previous.value.length == 0 then start - previous.value.location else 0;
        if direction == 1 {
          start := token.value.Max();
        } else if direction == -1 {
          start := token.value.location;
        } else {
          start := if start - token.value.location < token.value.length / 2 then token.value.location
                   else token.value.Max();
        }
        end := start;
      }
    } else {
      ghost var ends := Expand(ranges, start, end);
      for i := 0 to |ranges|
        invariant ends == Expand(ranges[i..], start, end)
      {
        assert ranges[i..][1..] == ranges[i + 1..];
        var token := ranges[i];
        if start < token.Max() && end > token.location {
          start := Min(start, token.location);
          end := MaxOf(end, token.Max());
        }
      }
    }
    selected := Range(start, end - start);
  }

  /** Non-empty ranges in order, none overlapping the next. */
  ghost predicate Sorted(ranges: seq<Range>) {
    && (forall k :: 0 <= k < |ranges| ==> ranges[k].length > 0)
    && (forall j, k :: 0 <= j < k < |ranges| ==> ranges[j].Max() <= ranges[k].location)
  }

  ghost predicate Within(ranges: seq<Range>, length: nat) {
    forall k :: 0 <= k < |ranges| ==> 0 <= ranges[k].location && ranges[k].Max() <= length
  }

  lemma RangesSorted(c: Composer, inSource: bool)
    requires c.Valid()
    ensures Sorted(Ranges(c, inSource)) && Within(Ranges(c, inSource), Length(c, inSource))
  {
    forall j, k | 0 <= j < k < |c.references|
      ensures c.references[j].source.Max() <= c.references[k].source.location
      ensures c.references[j].display.Max() <= c.references[k].display.location
    {
      InOrder(c, j + 1, k);
      assert c.Gap(k);
    }
    forall k | 0 <= k < |c.references|
      ensures c.references[k].source.length > 0 && c.references[k].display.length > 0
      ensures 0 <= c.references[k].source.location && c.references[k].source.Max() <= |c.source|
      ensures 0 <= c.references[k].display.location && c.references[k].display.Max() <= |c.text|
    {
      assert c.Labelled(k);
    }
  }

  lemma {:induction false} AroundIs(ranges: seq<Range>, x: int)
    ensures var t := FirstAround(ranges, x);
            (t.Some? ==> Inside(t.value, x) && t.value in ranges) && (t.None? <==> Aligned(ranges, x))
  {
    if ranges != [] { AroundIs(ranges[1..], x); }
  }

  lemma NoneAround(ranges: seq<Range>, x: int)
    requires forall k :: 0 <= k < |ranges| ==> x <= ranges[k].location
    ensures FirstAround(ranges, x) == None
  {
    AroundIs(ranges, x);
  }

  function LowEnd(ranges: seq<Range>, x: int): int {
    var t := FirstAround(ranges, x);
    if t.Some? then t.value.location else x
  }

  function HighEnd(ranges: seq<Range>, x: int): int {
    var t := FirstAround(ranges, x);
    if t.Some? then t.value.Max() else x
  }

  /** A single pass moves each end of a range out of the reference around it and nowhere else. */
  lemma {:induction false} ExpandEnds(ranges: seq<Range>, start: int, end: int)
    requires Sorted(ranges) && start < end
    ensures Expand(ranges, start, end) == (LowEnd(ranges, start), HighEnd(ranges, end))
    decreases |ranges|
  {
    if ranges != [] {
      var t, rest := ranges[0], ranges[1..];
      assert forall k :: 0 <= k < |rest| ==> rest[k] == ranges[k + 1];
      if start < t.Max() && end > t.location {
        var start', end' := Min(start, t.location), MaxOf(end, t.Max());
        NoneAround(rest, start');
        NoneAround(rest, t.Max());
        ExpandEnds(rest, start', end');
      } else {
        ExpandEnds(rest, start, end);
      }
    }
  }

  /** The end of a sorted range list around an aligned point: no range reaches over it. */
  lemma EndsAreLeast(ranges: seq<Range>, x: int, length: nat)
    requires Sorted(ranges) && Within(ranges, length) && 0 <= x <= length
    ensures Aligned(ranges, LowEnd(ranges, x)) && Aligned(ranges, HighEnd(ranges, x))
    ensures 0 <= LowEnd(ranges, x) <= x <= HighEnd(ranges, x) <= length
    ensures forall a :: Aligned(ranges, a) && a <= x ==> a <= LowEnd(ranges, x)
    ensures forall a :: Aligned(ranges, a) && x <= a ==> HighEnd(ranges, x) <= a
  {
    AroundIs(ranges, x);
    var t := FirstAround(ranges, x);
    if t.Some? {
      var i :| 0 <= i < |ranges| && ranges[i] == t.value;
      assert forall k :: 0 <= k < |ranges| && k < i ==> ranges[k].Max() <= ranges[i].location;
    }
  }

  /** Whatever is asked for, neither end of a selection lies inside a reference or outside the text. */
  lemma SelectionIsAligned(c: Composer, range: Range, previous: Option<Range>, inSource: bool)
    requires c.Valid()
    ensures var s := Selection(c, range, previous, inSource);
            && 0 <= s.location <= s.Max() <= Length(c, inSource)
            && Aligned(Ranges(c, inSource), s.location) && Aligned(Ranges(c, inSource), s.Max())
  {
    var ranges, length := Ranges(c, inSource), Length(c, inSource);
    RangesSorted(c, inSource);
    var start, end := ClampedStart(range, length), ClampedEnd(range, length);
    EndsAreLeast(ranges, start, length);
    EndsAreLeast(ranges, end, length);
    AroundIs(ranges, start);
    if start < end { ExpandEnds(ranges, start, end); }
  }

  /** A non-empty selection is the least aligned range around the clamped one, found in a single pass. */
  lemma SelectionIsLeast(c: Composer, range: Range, previous: Option<Range>, inSource: bool, a: int, b: int)
    requires c.Valid() && Aligned(Ranges(c, inSource), a) && Aligned(Ranges(c, inSource), b)
    requires var length := Length(c, inSource);
             a <= ClampedStart(range, length) < ClampedEnd(range, length) <= b
    ensures var s := Selection(c, range, previous, inSource);
            var length := Length(c, inSource);
            a <= s.location <= ClampedStart(range, length) && ClampedEnd(range, length) <= s.Max() <= b
  {
    var ranges, length := Ranges(c, inSource), Length(c, inSource);
    RangesSorted(c, inSource);
    EndsAreLeast(ranges, ClampedStart(range, length), length);
    EndsAreLeast(ranges, ClampedEnd(range, length), length);
    ExpandEnds(ranges, ClampedStart(range, length), ClampedEnd(range, length));
  }

  /** Selecting a selection changes nothing, wherever the caret came from. */
  lemma AlignedIsSelected(c: Composer, range: Range, previous: Option<Range>, inSource: bool)
    requires c.Valid() && 0 <= range.location <= range.Max() <= Length(c, inSource)
    requires Aligned(Ranges(c, inSource), range.location) && Aligned(Ranges(c, inSource), range.Max())
    ensures Selection(c, range, previous, inSource) == range
  {
    var ranges := Ranges(c, inSource);
    RangesSorted(c, inSource);
    AroundIs(ranges, range.location);
    AroundIs(ranges, range.Max());
    if range.length > 0 { ExpandEnds(ranges, range.location, range.Max()); }
  }

  lemma SelectionIsIdempotent(c: Composer, range: Range, first: Option<Range>, second: Option<Range>, inSource: bool)
    requires c.Valid()
    ensures var s := Selection(c, range, first, inSource); Selection(c, s, second, inSource) == s
  {
    hide Selection;
    SelectionIsAligned(c, range, first, inSource);
    AlignedIsSelected(c, Selection(c, range, first, inSource), second, inSource);
  }
}
