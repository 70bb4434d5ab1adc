/** An edit through the labels keeps the two texts in step: the new source, shown through the references
    that survive, is the old editor text with the edited range replaced, and nothing else moves. */
module ReferenceProjection {
  import opened Wrappers
  import opened ReferenceText
  import opened ReferenceOffsets
  import opened ReferenceEditing
  import opened ReferenceSplices

  function Moved(r: Reference, bySource: int, byDisplay: int): Reference {
    r.(source := Range(r.source.location + bySource, r.source.length),
       display := Range(r.display.location + byDisplay, r.display.length))
  }

  /** The first `j` references where they were and those from `k` on moved along. */
  function Survivors(references: seq<Reference>, j: nat, k: nat, bySource: int, byDisplay: int): (s: seq<Reference>)
    requires j <= k <= |references|
    ensures |s| == j + |references| - k
    ensures forall i :: 0 <= i < j ==> s[i] == references[i]
    ensures forall i :: j <= i < |s| ==> s[i] == Moved(references[i - j + k], bySource, byDisplay)
  {
    references[..j]
    + seq(|references| - k, i requires 0 <= i < |references| - k => Moved(references[k + i], bySource, byDisplay))
  }

  lemma SliceOfSlice(t: Text, a: int, b: int, x: int, y: int)
    requires 0 <= a <= b <= |t| && 0 <= x <= y <= b - a
    ensures t[a..b][x..y] == t[a + x..a + y]
  {
    forall i | 0 <= i < y - x
      ensures t[a..b][x..y][i] == t[a + x..a + y][i]
    {
      assert t[a..b][x + i] == t[a + x + i];
    }
  }

  lemma AppendSlices(p: Text, q: Text)
    ensures (p + q)[0..|p|] == p && (p + q)[|p|..|p + q|] == q
  {
  }

  lemma CutLeft(t: Text, a: int, b: int, w: Text, x: int, y: int)
    requires 0 <= x <= y <= a <= b <= |t|
    ensures y <= |Cut(t, a, b, w)| && Cut(t, a, b, w)[x..y] == t[x..y]
  {
    assert Cut(t, a, b, w) == t[0..a] + (w + t[b..]);
    AppendSlices(t[0..a], w + t[b..]);
    SliceOfSlice(t, 0, a, x, y);
    SliceOfSlice(Cut(t, a, b, w), 0, a, x, y);
  }

  lemma CutRight(t: Text, a: int, b: int, w: Text, x: int, y: int)
    requires 0 <= a <= b <= x <= y <= |t|
    ensures var shift := |w| - (b - a);
            0 <= x + shift <= y + shift <= |Cut(t, a, b, w)| && Cut(t, a, b, w)[x + shift..y + shift] == t[x..y]
  {
    var n := Cut(t, a, b, w);
    var m := a + |w|;
    assert n == (t[..a] + w) + t[b..|t|] && |t[..a] + w| == m;
    AppendSlices(t[..a] + w, t[b..|t|]);
    SliceOfSlice(t, b, |t|, x - b, y - b);
    SliceOfSlice(n, m, |n|, x - b, y - b);
  }

  lemma CutAcross(t: Text, a: int, b: int, w: Text, x: int, y: int)
    requires 0 <= x <= a <= b <= y <= |t|
    ensures var shift := |w| - (b - a);
            x <= y + shift <= |Cut(t, a, b, w)| && Cut(t, a, b, w)[x..y + shift] == t[x..a] + w + t[b..y]
  {
    var n := Cut(t, a, b, w);
    var m := a + |w|;
    CutLeft(t, a, b, w, x, a);
    CutRight(t, a, b, w, b, y);
    assert n[a..m] == w;
    assert n[x..m + y - b] == n[x..a] + n[a..m] + n[m..m + y - b];
  }

  /** The composer after `w` replaces the display range from gap `j` to gap `k`. */
  function Spliced(c: Composer, j: nat, k: nat, d: int, e: int, w: Text): Composer
    requires c.Valid() && j <= k <= |c.references| && d <= e
    requires c.DisplayFrom(j) <= d <= c.DisplayTo(j) && c.DisplayFrom(k) <= e <= c.DisplayTo(k)
  {
    SourceEndsOrdered(c, j, k, d, e);
    var s := c.SourceFrom(j) + d - c.DisplayFrom(j);
    var t := c.SourceFrom(k) + e - c.DisplayFrom(k);
    Composer(Cut(c.source, s, t, w), Cut(c.text, d, e, w),
             Survivors(c.references, j, k, |w| - (t - s), |w| - (e - d)))
  }

  lemma SourceEndsOrdered(c: Composer, j: nat, k: nat, d: int, e: int)
    requires c.Valid() && j <= k <= |c.references| && d <= e
    requires c.DisplayFrom(j) <= d <= c.DisplayTo(j) && c.DisplayFrom(k) <= e <= c.DisplayTo(k)
    ensures var s := c.SourceFrom(j) + d - c.DisplayFrom(j);
            var t := c.SourceFrom(k) + e - c.DisplayFrom(k);
            0 <= c.SourceFrom(j) <= s <= c.SourceTo(j) && c.SourceFrom(k) <= t <= c.SourceTo(k) <= |c.source| && s <= t
            && 0 <= d && e <= |c.text|
  {
    assert c.Gap(j) && c.Gap(k);
    InOrder(c, j, k);
  }

  lemma SplicedLabels(c: Composer, j: nat, k: nat, d: int, e: int, w: Text, i: nat)
    requires c.Valid() && j <= k <= |c.references| && d <= e
    requires c.DisplayFrom(j) <= d <= c.DisplayTo(j) && c.DisplayFrom(k) <= e <= c.DisplayTo(k)
    requires i < |Spliced(c, j, k, d, e, w).references|
    ensures Spliced(c, j, k, d, e, w).Labelled(i)
  {
    hide Cut, Survivors;
    SourceEndsOrdered(c, j, k, d, e);
    var s := c.SourceFrom(j) + d - c.DisplayFrom(j);
    var t := c.SourceFrom(k) + e - c.DisplayFrom(k);
    var o := if i < j then i else i - j + k;
    var r := c.references[o];
    assert c.Labelled(o);
    assert if i < j then r.display.Max() <= d && r.source.Max() <= s
           else e <= r.display.location && t <= r.source.location by {
      if i < j { InOrder(c, i + 1, j); } else { InOrder(c, k, o); }
    }
    if i < j {
      CutLeft(c.text, d, e, w, r.display.location, r.display.Max());
    } else {
      CutRight(c.text, d, e, w, r.display.location, r.display.Max());
    }
    CutLength(c.text, d, e, w);
    CutLength(c.source, s, t, w);
  }

  lemma CutLength(t: Text, a: int, b: int, w: Text)
    requires 0 <= a <= b <= |t|
    ensures |Cut(t, a, b, w)| == |t| + |w| - (b - a)
  {
  }

  lemma SplicedTexts(c: Composer, j: nat, k: nat, d: int, e: int, w: Text)
    requires c.Valid() && j <= k <= |c.references| && d <= e
    requires c.DisplayFrom(j) <= d <= c.DisplayTo(j) && c.DisplayFrom(k) <= e <= c.DisplayTo(k)
    ensures var n := Spliced(c, j, k, d, e, w);
            var s := c.SourceFrom(j) + d - c.DisplayFrom(j);
            var t := c.SourceFrom(k) + e - c.DisplayFrom(k);
            && 0 <= s <= t <= |c.source| && 0 <= d && e <= |c.text|
            && n.source == Cut(c.source, s, t, w) && n.text == Cut(c.text, d, e, w)
            && |n.source| == |c.source| + |w| - (t - s) && |n.text| == |c.text| + |w| - (e - d)
            && n.references == Survivors(c.references, j, k, |w| - (t - s), |w| - (e - d))
  {
    SourceEndsOrdered(c, j, k, d, e);
  }

  /** Where the gaps of the spliced composer start and end. */
  lemma EdgesMove(c: Composer, n: Composer, j: nat, k: nat, bySource: int, byDisplay: int, i: nat)
    requires j <= k <= |c.references| && i <= j + |c.references| - k
    requires n.references == Survivors(c.references, j, k, bySource, byDisplay)
    requires |n.source| == |c.source| + bySource && |n.text| == |c.text| + byDisplay
    ensures |n.references| == j + |c.references| - k
    ensures n.SourceFrom(i) == (if i <= j then c.SourceFrom(i) else c.SourceFrom(i - j + k) + bySource)
    ensures n.DisplayFrom(i) == (if i <= j then c.DisplayFrom(i) else c.DisplayFrom(i - j + k) + byDisplay)
    ensures n.SourceTo(i) == (if i < j then c.SourceTo(i) else c.SourceTo(i - j + k) + bySource)
    ensures n.DisplayTo(i) == (if i < j then c.DisplayTo(i) else c.DisplayTo(i - j + k) + byDisplay)
  {
    hide Survivors;
  }

  lemma SplicedEdges(c: Composer, j: nat, k: nat, d: int, e: int, w: Text, i: nat)
    requires c.Valid() && j <= k <= |c.references| && d <= e
    requires c.DisplayFrom(j) <= d <= c.DisplayTo(j) && c.DisplayFrom(k) <= e <= c.DisplayTo(k)
    requires i <= j + |c.references| - k
    ensures var n := Spliced(c, j, k, d, e, w);
            var s := c.SourceFrom(j) + d - c.DisplayFrom(j);
            var t := c.SourceFrom(k) + e - c.DisplayFrom(k);
            var bySource, byDisplay := |w| - (t - s), |w| - (e - d);
            && |n.references| == j + |c.references| - k
            && 0 <= s <= t <= |c.source| && 0 <= d && e <= |c.text|
            && n.source == Cut(c.source, s, t, w) && n.text == Cut(c.text, d, e, w)
            && n.SourceFrom(i) == (if i <= j then c.SourceFrom(i) else c.SourceFrom(i - j + k) + bySource)
            && n.DisplayFrom(i) == (if i <= j then c.DisplayFrom(i) else c.DisplayFrom(i - j + k) + byDisplay)
            && n.SourceTo(i) == (if i < j then c.SourceTo(i) else c.SourceTo(i - j + k) + bySource)
            && n.DisplayTo(i) == (if i < j then c.DisplayTo(i) else c.DisplayTo(i - j + k) + byDisplay)
  {
    SplicedTexts(c, j, k, d, e, w);
    hide Spliced, Cut, Survivors, Composer.Valid, Composer.SourceTo, Composer.DisplayTo;
    var s := c.SourceFrom(j) + d - c.DisplayFrom(j);
    var t := c.SourceFrom(k) + e - c.DisplayFrom(k);
    EdgesMove(c, Spliced(c, j, k, d, e, w), j, k, |w| - (t - s), |w| - (e - d), i);
  }

  /** A gap to the left of the cut stays. */
  lemma LeftGap(c: Composer, j: nat, k: nat, d: int, e: int, w: Text, i: nat)
    requires c.Valid() && j <= k <= |c.references| && d <= e
    requires c.DisplayFrom(j) <= d <= c.DisplayTo(j) && c.DisplayFrom(k) <= e <= c.DisplayTo(k)
    requires i < j
    ensures Spliced(c, j, k, d, e, w).Gap(i)
  {
    SourceEndsOrdered(c, j, k, d, e);
    var s := c.SourceFrom(j) + d - c.DisplayFrom(j);
    var t := c.SourceFrom(k) + e - c.DisplayFrom(k);
    SplicedEdges(c, j, k, d, e, w, i);
    hide Spliced, Cut;
    assert c.Gap(i);
    InOrder(c, i, j);
    hide Composer.Valid, Composer.SourceFrom, Composer.SourceTo, Composer.DisplayFrom, Composer.DisplayTo;
    CutLeft(c.text, d, e, w, c.DisplayFrom(i), c.DisplayTo(i));
    CutLeft(c.source, s, t, w, c.SourceFrom(i), c.SourceTo(i));
  }

  /** The gap at the cut joins what is left of both. */
  lemma JoinedGap(c: Composer, j: nat, k: nat, d: int, e: int, w: Text)
    requires c.Valid() && j <= k <= |c.references| && d <= e
    requires c.DisplayFrom(j) <= d <= c.DisplayTo(j) && c.DisplayFrom(k) <= e <= c.DisplayTo(k)
    ensures Spliced(c, j, k, d, e, w).Gap(j)
  {
    hide Spliced, Cut, Composer.Valid, Composer.SourceFrom, Composer.SourceTo, Composer.DisplayFrom, Composer.DisplayTo;
    SourceEndsOrdered(c, j, k, d, e);
    var s := c.SourceFrom(j) + d - c.DisplayFrom(j);
    var t := c.SourceFrom(k) + e - c.DisplayFrom(k);
    SplicedEdges(c, j, k, d, e, w, j);
    GapPart(c, j, c.DisplayFrom(j), d);
    GapPart(c, k, e, c.DisplayTo(k));
    assert c.source[c.SourceFrom(j)..s] == c.text[c.DisplayFrom(j)..d];
    assert c.source[t..c.SourceTo(k)] == c.text[e..c.DisplayTo(k)] by { GapEnds(c, k); }
    CutsAgree(c.source, s, t, c.text, d, e, w, c.SourceFrom(j), c.SourceTo(k), c.DisplayFrom(j), c.DisplayTo(k));
  }

  lemma CutsAgree(a: Text, s: int, t: int, b: Text, d: int, e: int, w: Text, x: int, y: int, p: int, q: int)
    requires 0 <= x <= s <= t <= y <= |a| && 0 <= p <= d <= e <= q <= |b|
    requires a[x..s] == b[p..d] && a[t..y] == b[e..q]
    ensures var y', q' := y + |w| - (t - s), q + |w| - (e - d);
            && x <= y' <= |Cut(a, s, t, w)| && p <= q' <= |Cut(b, d, e, w)|
            && Cut(a, s, t, w)[x..y'] == Cut(b, d, e, w)[p..q']
  {
    hide Cut;
    CutAcross(a, s, t, w, x, y);
    CutAcross(b, d, e, w, p, q);
  }

  /** A gap to the right of the cut moves with the references around it. */
  lemma RightGap(c: Composer, j: nat, k: nat, d: int, e: int, w: Text, i: nat)
    requires c.Valid() && j <= k <= |c.references| && d <= e
    requires c.DisplayFrom(j) <= d <= c.DisplayTo(j) && c.DisplayFrom(k) <= e <= c.DisplayTo(k)
    requires j < i <= j + |c.references| - k
    ensures Spliced(c, j, k, d, e, w).Gap(i)
  {
    SourceEndsOrdered(c, j, k, d, e);
    var s := c.SourceFrom(j) + d - c.DisplayFrom(j);
    var t := c.SourceFrom(k) + e - c.DisplayFrom(k);
    SplicedEdges(c, j, k, d, e, w, i);
    var o := i - j + k;
    assert c.Gap(o);
    InOrder(c, k, o);
    hide Spliced, Cut, Composer.Valid, Composer.SourceFrom, Composer.SourceTo, Composer.DisplayFrom, Composer.DisplayTo;
    CutRight(c.text, d, e, w, c.DisplayFrom(o), c.DisplayTo(o));
    CutRight(c.source, s, t, w, c.SourceFrom(o), c.SourceTo(o));
  }

  /** Part of a gap reads the same on both sides. */
  lemma GapPart(c: Composer, k: nat, x: int, y: int)
    requires c.Valid() && k <= |c.references| && c.DisplayFrom(k) <= x <= y <= c.DisplayTo(k)
    ensures var shift := c.SourceFrom(k) - c.DisplayFrom(k);
            && 0 <= x && y <= |c.text| && 0 <= x + shift && y + shift <= |c.source|
            && c.source[x + shift..y + shift] == c.text[x..y]
  {
    assert c.Gap(k);
    SliceOfSlice(c.text, c.DisplayFrom(k), c.DisplayTo(k), x - c.DisplayFrom(k), y - c.DisplayFrom(k));
    SliceOfSlice(c.source, c.SourceFrom(k), c.SourceTo(k), x - c.DisplayFrom(k), y - c.DisplayFrom(k));
  }

  lemma GapEnds(c: Composer, k: nat)
    requires c.Valid() && k <= |c.references|
    ensures c.SourceTo(k) - c.SourceFrom(k) == c.DisplayTo(k) - c.DisplayFrom(k)
    ensures 0 <= c.SourceFrom(k) <= c.SourceTo(k) <= |c.source| && 0 <= c.DisplayFrom(k) <= c.DisplayTo(k) <= |c.text|
  {
    assert c.Gap(k);
  }

  lemma SplicedIsValid(c: Composer, j: nat, k: nat, d: int, e: int, w: Text)
    requires c.Valid() && j <= k <= |c.references| && d <= e
    requires c.DisplayFrom(j) <= d <= c.DisplayTo(j) && c.DisplayFrom(k) <= e <= c.DisplayTo(k)
    ensures Spliced(c, j, k, d, e, w).Valid()
  {
    SplicedEdges(c, j, k, d, e, w, j);
    hide Spliced;
    var n := |Spliced(c, j, k, d, e, w).references|;
    forall i | 0 <= i <= n
      ensures Spliced(c, j, k, d, e, w).Gap(i)
    {
      if i < j {
        LeftGap(c, j, k, d, e, w, i);
      } else if i == j {
        JoinedGap(c, j, k, d, e, w);
      } else {
        RightGap(c, j, k, d, e, w, i);
      }
    }
    forall i | 0 <= i < n
      ensures Spliced(c, j, k, d, e, w).Labelled(i)
    {
      SplicedLabels(c, j, k, d, e, w, i);
    }
  }

  /** What a source shows through given references: gaps as they are, references as their names. */
  function Project(source: Text, references: seq<Reference>, from: int): Text
    decreases |references|
  {
    if references == [] then (if 0 <= from <= |source| then source[from..] else [])
    else
      var r := references[0];
      (if 0 <= from <= r.source.location <= |source| then source[from..r.source.location] else [])
      + r.name + Project(source, references[1..], r.source.Max())
  }

  lemma {:induction false} ValidProjects(c: Composer, k: nat)
    requires c.Valid() && k <= |c.references|
    ensures c.Gap(k) && Project(c.source, c.references[k..], c.SourceFrom(k)) == c.text[c.DisplayFrom(k)..]
    decreases |c.references| - k
  {
    assert c.Gap(k);
    if k == |c.references| {
      assert c.source[c.SourceFrom(k)..] == c.source[c.SourceFrom(k)..c.SourceTo(k)];
      assert c.text[c.DisplayFrom(k)..] == c.text[c.DisplayFrom(k)..c.DisplayTo(k)];
    } else {
      assert c.Labelled(k);
      assert c.references[k..][1..] == c.references[k + 1..];
      ValidProjects(c, k + 1);
      hide Composer.Valid, Composer.Labelled;
      assert c.text[c.DisplayFrom(k)..]
          == c.text[c.DisplayFrom(k)..c.DisplayTo(k)] + c.references[k].name + c.text[c.DisplayFrom(k + 1)..];
    }
  }

  /** The editor's text is always the projection of the source. */
  lemma TextIsProjection(c: Composer)
    requires c.Valid()
    ensures Project(c.source, c.references, 0) == c.text
  {
    assert c.references[0..] == c.references;
    ValidProjects(c, 0);
  }

  /** No reference is touched: an insertion stands outside, a replacement overlaps none. */
  ghost predicate Untouched(ranges: seq<Range>, start: int, end: int) {
    forall k :: 0 <= k < |ranges| ==>
      if start == end then !Inside(ranges[k], start) else end <= ranges[k].location || ranges[k].Max() <= start
  }

  lemma UntouchedIsAligned(ranges: seq<Range>, start: int, end: int)
    requires Sorted(ranges) && start <= end && Untouched(ranges, start, end)
    ensures Aligned(ranges, start) && Aligned(ranges, end)
  {
  }

  lemma SplicedProjects(c: Composer, j: nat, k: nat, d: int, e: int, w: Text)
    requires c.Valid() && j <= k <= |c.references| && d <= e
    requires c.DisplayFrom(j) <= d <= c.DisplayTo(j) && c.DisplayFrom(k) <= e <= c.DisplayTo(k)
    ensures var s := c.SourceFrom(j) + d - c.DisplayFrom(j);
            var t := c.SourceFrom(k) + e - c.DisplayFrom(k);
            && 0 <= s <= t <= |c.source| && 0 <= d && e <= |c.text|
            && Project(Cut(c.source, s, t, w), Survivors(c.references, j, k, |w| - (t - s), |w| - (e - d)), 0)
               == Cut(c.text, d, e, w)
  {
    SplicedTexts(c, j, k, d, e, w);
    hide Project, Survivors, Cut, Spliced, Composer.Valid;
    SplicedIsValid(c, j, k, d, e, w);
    TextIsProjection(Spliced(c, j, k, d, e, w));
  }

  /** An untouched splice lies in one gap. */
  lemma UntouchedCount(c: Composer, d: int, e: int)
    requires c.Valid() && d <= e && Untouched(Ranges(c, false), d, e)
    ensures Before(c.references, d) == Before(c.references, e)
  {
    hide Before;
    BeforeMonotone(c.references, d, e);
    BeforeIs(c.references, d);
    BeforeIs(c.references, e);
    var j, k := Before(c.references, d), Before(c.references, e);
    if j < k {
      assert Ranges(c, false)[j] == c.references[j].display && c.Labelled(j) && c.Gap(j);
      InOrder(c, j + 1, k);
    }
  }

  lemma UntouchedSourceCount(c: Composer, d: int, e: int)
    requires c.Valid() && d <= e && Untouched(Ranges(c, true), d, e)
    ensures BeforeSource(c.references, d) == BeforeSource(c.references, e)
  {
    hide BeforeSource;
    BeforeMonotone(c.references, d, e);
    BeforeSourceIs(c.references, d);
    BeforeSourceIs(c.references, e);
    var j, k := BeforeSource(c.references, d), BeforeSource(c.references, e);
    if j < k {
      assert Ranges(c, true)[j] == c.references[j].source && c.Labelled(j) && c.Gap(j);
      InOrder(c, j + 1, k);
    }
  }

  /** What an edit does: the chosen splice, the range it is widened to, as `d` to `e` in the display and
      `s` to `t` in the source, and the gaps `j` and `k` in which that range starts and ends. */
  datatype Plan = Plan(splice: Splice, d: int, e: int, s: int, t: int, j: nat, k: nat)

  function PlanOf(c: Composer, value: Text, selection: Range, inSource: bool): Plan {
    var splice := Choose(Shown(c, inSource), value, selection);
    var wide := Selection(c, Range(splice.start, splice.end - splice.start), None, inSource);
    var from, to := wide.location, wide.Max();
    if inSource then
      Plan(splice, DisplayOffset(c, from), DisplayOffset(c, to), from, to,
           BeforeSource(c.references, from), BeforeSource(c.references, to))
    else
      Plan(splice, from, to, SourceOffset(c, from), SourceOffset(c, to),
           Before(c.references, from), Before(c.references, to))
  }

  /** Gap `k` holds the display offset `d`, and `s` is the same place of the source. */
  ghost predicate AtGap(c: Composer, k: nat, d: int, s: int) {
    k <= |c.references| && c.DisplayFrom(k) <= d <= c.DisplayTo(k) && s == c.SourceFrom(k) + d - c.DisplayFrom(k)
  }

  /** The range of a plan starts and ends in its gaps, at the same places of both texts. */
  lemma PlanInGaps(c: Composer, value: Text, selection: Range, inSource: bool)
    requires c.Valid()
    ensures var p := PlanOf(c, value, selection, inSource);
            p.j <= p.k && p.d <= p.e && AtGap(c, p.j, p.d, p.s) && AtGap(c, p.k, p.e, p.t)
  {
    hide AtGap, Choose, Selection, SourceOffset, DisplayOffset, Before, BeforeSource, Aligned, Ranges, Composer.Valid;
    var splice := Choose(Shown(c, inSource), value, selection);
    var range := Range(splice.start, splice.end - splice.start);
    SelectionIsAligned(c, range, None, inSource);
    var wide := Selection(c, range, None, inSource);
    var from, to := wide.location, wide.Max();
    BeforeMonotone(c.references, from, to);
    OffsetsMonotone(c, from, to);
    PointInGap(c, from, inSource);
    PointInGap(c, to, inSource);
  }

  lemma PointInGap(c: Composer, x: int, inSource: bool)
    requires c.Valid() && 0 <= x <= Length(c, inSource) && Aligned(Ranges(c, inSource), x)
    ensures var k := if inSource then BeforeSource(c.references, x) else Before(c.references, x);
            var d := if inSource then DisplayOffset(c, x) else x;
            var s := if inSource then x else SourceOffset(c, x);
            AtGap(c, k, d, s)
  {
    hide SourceOffset, DisplayOffset, Before, BeforeSource;
    if inSource {
      AlignedInSourceGap(c, x);
      var k := BeforeSource(c.references, x);
      GapOffsets(c, k, c.DisplayFrom(k) + x - c.SourceFrom(k));
    } else {
      AlignedInGap(c, x);
      GapOffsets(c, Before(c.references, x), x);
    }
  }

  /** An edit carries its plan out on the source, and keeps the source outside it unit for unit. */
  lemma EditFollowsPlan(c: Composer, value: Text, selection: Range, inSource: bool)
    requires c.Valid()
    ensures var p := PlanOf(c, value, selection, inSource);
            var edit := Editing(c, value, selection, inSource);
            && 0 <= p.s <= p.t <= |c.source| && 0 <= p.d <= p.e <= |c.text|
            && edit.text == Cut(c.source, p.s, p.t, p.splice.text) && edit.cursor == p.s + |p.splice.text|
  {
    hide Choose, Selection, SourceOffset, DisplayOffset, Before, BeforeSource;
    PlanInGaps(c, value, selection, inSource);
    var p := PlanOf(c, value, selection, inSource);
    SourceEndsOrdered(c, p.j, p.k, p.d, p.e);
  }

  /** A splice that touches no reference is not widened. */
  lemma UntouchedPlan(c: Composer, value: Text, selection: Range, inSource: bool)
    requires c.Valid()
    ensures var p := PlanOf(c, value, selection, inSource);
            Untouched(Ranges(c, inSource), p.splice.start, p.splice.end) ==>
              p.j == p.k && (if inSource then p.s else p.d) == p.splice.start
                         && (if inSource then p.t else p.e) == p.splice.end
  {
    hide Choose, Selection, SourceOffset, DisplayOffset, Before, BeforeSource;
    var splice := Choose(Shown(c, inSource), value, selection);
    if Untouched(Ranges(c, inSource), splice.start, splice.end) {
      RangesSorted(c, inSource);
      UntouchedIsAligned(Ranges(c, inSource), splice.start, splice.end);
      AlignedIsSelected(c, Range(splice.start, splice.end - splice.start), None, inSource);
      if inSource {
        UntouchedSourceCount(c, splice.start, splice.end);
      } else {
        UntouchedCount(c, splice.start, splice.end);
      }
    }
  }

  /** How far a splice is widened: each end of a deletion or replacement out of the reference around it and nowhere
      else, while a caret inside a reference goes to its nearer end. */
  ghost predicate Widened(ranges: seq<Range>, splice: Splice, from: int, to: int) {
    if splice.start < splice.end then from == LowEnd(ranges, splice.start) && to == HighEnd(ranges, splice.end)
    else from == to && match FirstAround(ranges, splice.start)
                       case Some(t) => from == if splice.start - t.location < t.length / 2 then t.location else t.Max()
                       case None => from == splice.start
  }

  /** A reference is dropped if and only if a deletion or replacement overlaps it. */
  ghost predicate DropsOverlapped(ranges: seq<Range>, splice: Splice, j: nat, k: nat) {
    forall i :: 0 <= i < |ranges| ==>
      (j <= i < k <==>
       splice.start < splice.end && ranges[i].location < splice.end && splice.start < ranges[i].Max())
  }

  /** So many ranges end at or before `x`. */
  ghost predicate Counted(ranges: seq<Range>, x: int, k: nat) {
    && k <= |ranges|
    && (k > 0 ==> ranges[k - 1].Max() <= x)
    && (k < |ranges| ==> x < ranges[k].Max())
  }

  lemma CountedIs(ranges: seq<Range>, x: int, k: nat, i: nat)
    requires Sorted(ranges) && Counted(ranges, x, k) && i < |ranges|
    ensures i < k <==> ranges[i].Max() <= x
  {
    assert i < k ==> i == k - 1 || ranges[i].Max() <= ranges[k - 1].location;
  }

  lemma LowPasses(ranges: seq<Range>, x: int, i: nat)
    requires Sorted(ranges) && i < |ranges|
    ensures LowEnd(ranges, x) < ranges[i].Max() <==> x < ranges[i].Max()
  {
    AroundIs(ranges, x);
    var t := FirstAround(ranges, x);
    if t.Some? { var o :| 0 <= o < |ranges| && ranges[o] == t.value; }
  }

  lemma HighPasses(ranges: seq<Range>, x: int, i: nat)
    requires Sorted(ranges) && i < |ranges|
    ensures ranges[i].Max() <= HighEnd(ranges, x) <==> ranges[i].location < x
  {
    AroundIs(ranges, x);
    var t := FirstAround(ranges, x);
    if t.Some? { var o :| 0 <= o < |ranges| && ranges[o] == t.value; }
  }

  lemma WidenedDrops(ranges: seq<Range>, splice: Splice, from: int, to: int, j: nat, k: nat)
    requires Sorted(ranges) && splice.start <= splice.end && Widened(ranges, splice, from, to)
    requires Counted(ranges, from, j) && Counted(ranges, to, k)
    ensures DropsOverlapped(ranges, splice, j, k)
  {
    forall i | 0 <= i < |ranges|
      ensures j <= i < k <==>
              splice.start < splice.end && ranges[i].location < splice.end && splice.start < ranges[i].Max()
    {
      CountedIs(ranges, from, j, i);
      CountedIs(ranges, to, k, i);
      LowPasses(ranges, splice.start, i);
      HighPasses(ranges, splice.end, i);
    }
  }

  lemma BeforeCounts(c: Composer, x: int, inSource: bool)
    ensures Counted(Ranges(c, inSource), x, if inSource then BeforeSource(c.references, x) else Before(c.references, x))
  {
    BeforeIs(c.references, x);
    BeforeSourceIs(c.references, x);
  }

  lemma PlanWidens(c: Composer, value: Text, selection: Range, inSource: bool)
    requires c.Valid()
    ensures var p := PlanOf(c, value, selection, inSource);
            && Widened(Ranges(c, inSource), p.splice, if inSource then p.s else p.d, if inSource then p.t else p.e)
            && DropsOverlapped(Ranges(c, inSource), p.splice, p.j, p.k)
  {
    hide Choose, SourceOffset, DisplayOffset, Before, BeforeSource, DropsOverlapped;
    var ranges, p := Ranges(c, inSource), PlanOf(c, value, selection, inSource);
    var from, to := if inSource then p.s else p.d, if inSource then p.t else p.e;
    RangesSorted(c, inSource);
    if p.splice.start < p.splice.end { ExpandEnds(ranges, p.splice.start, p.splice.end); }
    assert Widened(ranges, p.splice, from, to);
    BeforeCounts(c, from, inSource);
    BeforeCounts(c, to, inSource);
    WidenedDrops(ranges, p.splice, from, to, p.j, p.k);
  }

  /** The new value, the plan and the edit belong together: the splice turns the old text exactly into the
      value, both ends of the widened range stand in gaps between references, which takes out exactly the references
      that a deletion or replacement overlaps, the edit replaces just that range of the source, and the new source,
      projected through the references before and behind it, is the old editor text with just that range replaced. */
  ghost predicate InStep(c: Composer, value: Text, inSource: bool, p: Plan, edit: TextEdit) {
    var w := p.splice.text;
    && p.splice.start <= p.splice.end <= |Shown(c, inSource)| && Apply(Shown(c, inSource), p.splice) == value
    && 0 <= p.s <= p.t <= |c.source| && 0 <= p.d <= p.e <= |c.text| && p.j <= p.k <= |c.references|
    && AtGap(c, p.j, p.d, p.s) && AtGap(c, p.k, p.e, p.t)
    && Widened(Ranges(c, inSource), p.splice, if inSource then p.s else p.d, if inSource then p.t else p.e)
    && DropsOverlapped(Ranges(c, inSource), p.splice, p.j, p.k)
    && edit.text == Cut(c.source, p.s, p.t, w) && edit.cursor == p.s + |w|
    && Project(edit.text, Survivors(c.references, p.j, p.k, |w| - (p.t - p.s), |w| - (p.e - p.d)), 0)
       == Cut(c.text, p.d, p.e, w)
  }

  /** The main result about editing, in the editor's text and in the source alike, for every new value and
      selection. A reference is dropped, and then as a whole, if and only if a deletion or replacement overlaps it; an
      insertion drops none, and inside a reference goes to its nearer end. A splice that touches no reference shows
      exactly the value. */
  lemma EditKeepsStep(c: Composer, value: Text, selection: Range, inSource: bool)
    requires c.Valid()
    ensures var p := PlanOf(c, value, selection, inSource);
            var edit := Editing(c, value, selection, inSource);
            && InStep(c, value, inSource, p, edit)
            && (Untouched(Ranges(c, inSource), p.splice.start, p.splice.end) ==>
                  p.j == p.k && (if inSource then edit.text else Cut(c.text, p.d, p.e, p.splice.text)) == value)
  {
    PlanInGaps(c, value, selection, inSource);
    EditFollowsPlan(c, value, selection, inSource);
    UntouchedPlan(c, value, selection, inSource);
    PlanSplices(c, value, selection, inSource);
    PlanWidens(c, value, selection, inSource);
    var p := PlanOf(c, value, selection, inSource);
    hide PlanOf, Editing, Untouched, Cut, InStep, Widened, DropsOverlapped;
    PlanStep(c, value, inSource, p, Editing(c, value, selection, inSource));
  }

  lemma PlanStep(c: Composer, value: Text, inSource: bool, p: Plan, edit: TextEdit)
    requires c.Valid() && p.j <= p.k <= |c.references| && p.d <= p.e
    requires c.DisplayFrom(p.j) <= p.d <= c.DisplayTo(p.j) && p.s == c.SourceFrom(p.j) + p.d - c.DisplayFrom(p.j)
    requires c.DisplayFrom(p.k) <= p.e <= c.DisplayTo(p.k) && p.t == c.SourceFrom(p.k) + p.e - c.DisplayFrom(p.k)
    requires p.splice.start <= p.splice.end <= |Shown(c, inSource)| && Apply(Shown(c, inSource), p.splice) == value
    requires 0 <= p.s <= p.t <= |c.source| && 0 <= p.d <= p.e <= |c.text|
    requires edit.text == Cut(c.source, p.s, p.t, p.splice.text) && edit.cursor == p.s + |p.splice.text|
    requires Widened(Ranges(c, inSource), p.splice, if inSource then p.s else p.d, if inSource then p.t else p.e)
    requires DropsOverlapped(Ranges(c, inSource), p.splice, p.j, p.k)
    ensures InStep(c, value, inSource, p, edit)
  {
    hide Widened, DropsOverlapped;
    SplicedProjects(c, p.j, p.k, p.d, p.e, p.splice.text);
  }

  lemma PlanSplices(c: Composer, value: Text, selection: Range, inSource: bool)
    requires c.Valid()
    ensures var s := PlanOf(c, value, selection, inSource).splice;
            s.start <= s.end <= |Shown(c, inSource)| && Apply(Shown(c, inSource), s) == value
  {
    hide Selection, SourceOffset, DisplayOffset, Before, BeforeSource, Apply;
    var s := Choose(Shown(c, inSource), value, selection);
  }
}
