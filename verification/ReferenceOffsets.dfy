/** The two offset maps are monotone, stay in bounds and undo each other outside references. */
module ReferenceOffsets {
  import opened ReferenceText

  /** Gaps are laid out in order on both sides. */
  lemma {:induction false} InOrder(c: Composer, j: nat, k: nat)
    requires c.Valid() && j <= k <= |c.references|
    ensures c.SourceFrom(j) <= c.SourceFrom(k) && c.DisplayFrom(j) <= c.DisplayFrom(k)
    ensures c.SourceTo(j) <= c.SourceTo(k) && c.DisplayTo(j) <= c.DisplayTo(k)
    ensures j < k ==> c.SourceTo(j) < c.SourceFrom(k) && c.DisplayTo(j) < c.DisplayFrom(k)
    decreases k - j
  {
    assert c.Gap(k);
    if j < k {
      InOrder(c, j, k - 1);
      assert c.Gap(k - 1) && c.Labelled(k - 1);
    }
  }

  /** An offset behind the first `k` references is looked up among the others. */
  lemma {:induction false} SourceSkips(c: Composer, k: nat, d: int)
    requires c.Valid() && k <= |c.references| && (k > 0 ==> d >= c.DisplayFrom(k))
    ensures SourceOffset(c, d)
         == SourceScan(c.references[k..], d, c.SourceFrom(k) - c.DisplayFrom(k), |c.source|)
  {
    if k == 0 {
      assert c.references[0..] == c.references;
    } else {
      InOrder(c, k - 1, k);
      SourceSkips(c, k - 1, d);
      assert c.Gap(k - 1) && c.Labelled(k - 1);
      assert c.references[k - 1..][1..] == c.references[k..];
    }
  }

  lemma {:induction false} DisplaySkips(c: Composer, k: nat, s: int)
    requires c.Valid() && k <= |c.references| && (k > 0 ==> s >= c.SourceFrom(k))
    ensures DisplayOffset(c, s)
         == DisplayScan(c.references[k..], s, c.SourceFrom(k) - c.DisplayFrom(k), |c.text|)
  {
    if k == 0 {
      assert c.references[0..] == c.references;
    } else {
      InOrder(c, k - 1, k);
      DisplaySkips(c, k - 1, s);
      assert c.Gap(k - 1) && c.Labelled(k - 1);
      assert c.references[k - 1..][1..] == c.references[k..];
    }
  }

  /** In a gap both maps shift by the gap's own distance. */
  lemma GapOffsets(c: Composer, k: nat, d: int)
    requires c.Valid() && k <= |c.references| && c.DisplayFrom(k) <= d <= c.DisplayTo(k)
    ensures var s := c.SourceFrom(k) + d - c.DisplayFrom(k);
            c.SourceFrom(k) <= s <= c.SourceTo(k) && SourceOffset(c, d) == s && DisplayOffset(c, s) == d
  {
    assert c.Gap(k);
    SourceSkips(c, k, d);
    DisplaySkips(c, k, c.SourceFrom(k) + d - c.DisplayFrom(k));
  }

  /** Inside a reference the nearer end is taken. */
  lemma InsideOffset(c: Composer, k: nat, d: int)
    requires c.Valid() && k < |c.references| && c.DisplayTo(k) < d < c.references[k].display.Max()
    ensures SourceOffset(c, d) == c.SourceTo(k) || SourceOffset(c, d) == c.SourceFrom(k + 1)
  {
    assert c.Gap(k);
    SourceSkips(c, k, d);
  }

  lemma InsideSource(c: Composer, k: nat, s: int)
    requires c.Valid() && k < |c.references| && c.SourceTo(k) < s < c.references[k].source.Max()
    ensures DisplayOffset(c, s) == c.DisplayFrom(k + 1)
  {
    assert c.Gap(k);
    DisplaySkips(c, k, s);
  }

  lemma BelowOffsets(c: Composer, x: int)
    requires c.Valid() && x <= 0
    ensures SourceOffset(c, x) == 0 && DisplayOffset(c, x) == 0
  {
    if c.references != [] { assert c.Labelled(0); }
  }

  lemma AboveSource(c: Composer, x: int)
    requires c.Valid() && x >= |c.text|
    ensures SourceOffset(c, x) == |c.source|
  {
    var n := |c.references|;
    assert c.Gap(n);
    SourceSkips(c, n, x);
  }

  lemma AboveDisplay(c: Composer, x: int)
    requires c.Valid() && x >= |c.source|
    ensures DisplayOffset(c, x) == |c.text|
  {
    var n := |c.references|;
    assert c.Gap(n);
    DisplaySkips(c, n, x);
  }

  /** How many of the references end at or before an offset of the display. */
  function Before(references: seq<Reference>, d: int): (k: nat)
    ensures k <= |references|
  {
    if references == [] || references[|references| - 1].display.Max() <= d then |references|
    else Before(references[..|references| - 1], d)
  }

  lemma {:induction false} BeforeIs(references: seq<Reference>, d: int)
    ensures var k := Before(references, d);
            && (k > 0 ==> references[k - 1].display.Max() <= d)
            && (k < |references| ==> d < references[k].display.Max())
  {
    if references != [] && references[|references| - 1].display.Max() > d {
      BeforeIs(references[..|references| - 1], d);
    }
  }

  function BeforeSource(references: seq<Reference>, s: int): (k: nat)
    ensures k <= |references|
  {
    if references == [] || references[|references| - 1].source.Max() <= s then |references|
    else BeforeSource(references[..|references| - 1], s)
  }

  lemma {:induction false} BeforeSourceIs(references: seq<Reference>, s: int)
    ensures var k := BeforeSource(references, s);
            && (k > 0 ==> references[k - 1].source.Max() <= s)
            && (k < |references| ==> s < references[k].source.Max())
  {
    if references != [] && references[|references| - 1].source.Max() > s {
      BeforeSourceIs(references[..|references| - 1], s);
    }
  }

  /** Not strictly inside a reference. */
  ghost predicate Aligned(ranges: seq<Range>, x: int) {
    forall k :: 0 <= k < |ranges| ==> x <= ranges[k].location || ranges[k].Max() <= x
  }

  function Ranges(c: Composer, inSource: bool): (r: seq<Range>)
    ensures |r| == |c.references|
    ensures forall k :: 0 <= k < |r| ==> r[k] == (if inSource then c.references[k].source else c.references[k].display)
  {
    seq(|c.references|, k requires 0 <= k < |c.references| =>
      if inSource then c.references[k].source else c.references[k].display)
  }

  function Length(c: Composer, inSource: bool): nat {
    if inSource then |c.source| else |c.text|
  }

  /** An aligned offset lies in the gap behind the references that end before it. */
  lemma AlignedInGap(c: Composer, d: int)
    requires c.Valid() && 0 <= d <= |c.text| && Aligned(Ranges(c, false), d)
    ensures var k := Before(c.references, d); c.DisplayFrom(k) <= d <= c.DisplayTo(k)
  {
    var k := Before(c.references, d);
    BeforeIs(c.references, d);
    if k < |c.references| { assert Ranges(c, false)[k] == c.references[k].display; }
  }

  lemma AlignedInSourceGap(c: Composer, s: int)
    requires c.Valid() && 0 <= s <= |c.source| && Aligned(Ranges(c, true), s)
    ensures var k := BeforeSource(c.references, s);
            && c.SourceFrom(k) <= s <= c.SourceTo(k)
            && c.DisplayFrom(k) <= c.DisplayFrom(k) + s - c.SourceFrom(k) <= c.DisplayTo(k)
  {
    var k := BeforeSource(c.references, s);
    BeforeSourceIs(c.references, s);
    assert c.Gap(k);
    if k < |c.references| { assert Ranges(c, true)[k] == c.references[k].source; }
  }

  /** Outside references the two maps undo each other. */
  lemma OffsetsInvert(c: Composer, x: int)
    requires c.Valid()
    ensures 0 <= x <= |c.text| && Aligned(Ranges(c, false), x) ==>
              DisplayOffset(c, SourceOffset(c, x)) == x && Aligned(Ranges(c, true), SourceOffset(c, x))
    ensures 0 <= x <= |c.source| && Aligned(Ranges(c, true), x) ==>
              SourceOffset(c, DisplayOffset(c, x)) == x && Aligned(Ranges(c, false), DisplayOffset(c, x))
  {
    hide SourceOffset, DisplayOffset, Before, BeforeSource, Aligned, Composer.Valid;
    if 0 <= x <= |c.text| && Aligned(Ranges(c, false), x) {
      var k := Before(c.references, x);
      AlignedInGap(c, x);
      GapOffsets(c, k, x);
      GapIsAligned(c, k, x);
    }
    if 0 <= x <= |c.source| && Aligned(Ranges(c, true), x) {
      var k := BeforeSource(c.references, x);
      AlignedInSourceGap(c, x);
      assert c.DisplayFrom(k) <= c.DisplayFrom(k) + x - c.SourceFrom(k) <= c.DisplayTo(k);
      GapOffsets(c, k, c.DisplayFrom(k) + x - c.SourceFrom(k));
      GapIsAligned(c, k, c.DisplayFrom(k) + x - c.SourceFrom(k));
    }
  }

  lemma GapIsAligned(c: Composer, k: nat, d: int)
    requires c.Valid() && k <= |c.references| && c.DisplayFrom(k) <= d <= c.DisplayTo(k)
    ensures Aligned(Ranges(c, false), d) && Aligned(Ranges(c, true), c.SourceFrom(k) + d - c.DisplayFrom(k))
  {
    assert c.Gap(k);
    forall j | 0 <= j < |c.references|
      ensures d <= c.references[j].display.location || c.references[j].display.Max() <= d
      ensures var s := c.SourceFrom(k) + d - c.DisplayFrom(k);
              s <= c.references[j].source.location || c.references[j].source.Max() <= s
    {
      if j < k { InOrder(c, j + 1, k); } else { InOrder(c, k, j); }
    }
  }

  /** Every offset within the text lies in a gap or inside a reference. */
  lemma SourceBounds(c: Composer, d: int)
    requires c.Valid() && 0 <= d <= |c.text|
    ensures var k := Before(c.references, d);
            && c.SourceFrom(k) <= SourceOffset(c, d)
            && SourceOffset(c, d) <= (if d <= c.DisplayTo(k) then c.SourceTo(k) else c.SourceFrom(k + 1))
            && (d > c.DisplayTo(k) ==>
                  k < |c.references| && SourceOffset(c, d) >= c.SourceTo(k) && d < c.references[k].display.Max())
            && (k < |c.references| ==> c.SourceTo(k) <= c.SourceFrom(k + 1))
            && 0 <= SourceOffset(c, d) <= |c.source|
  {
    var k := Before(c.references, d);
    BeforeIs(c.references, d);
    assert c.Gap(k);
    if d <= c.DisplayTo(k) {
      GapOffsets(c, k, d);
    } else {
      InsideOffset(c, k, d);
    }
    if k < |c.references| { assert c.Labelled(k); }
  }

  lemma DisplayBounds(c: Composer, s: int)
    requires c.Valid() && 0 <= s <= |c.source|
    ensures var k := BeforeSource(c.references, s);
            && c.DisplayFrom(k) <= DisplayOffset(c, s)
            && DisplayOffset(c, s) <= (if s <= c.SourceTo(k) then c.DisplayTo(k) else c.DisplayFrom(k + 1))
            && (s > c.SourceTo(k) ==> k < |c.references| && DisplayOffset(c, s) == c.DisplayFrom(k + 1))
  {
    var k := BeforeSource(c.references, s);
    BeforeSourceIs(c.references, s);
    assert c.Gap(k);
    if s <= c.SourceTo(k) {
      GapOffsets(c, k, c.DisplayFrom(k) + s - c.SourceFrom(k));
    } else {
      assert c.Labelled(k);
      InsideSource(c, k, s);
    }
  }

  lemma {:induction false} BeforeMonotone(references: seq<Reference>, x: int, y: int)
    requires x <= y
    ensures Before(references, x) <= Before(references, y)
    ensures BeforeSource(references, x) <= BeforeSource(references, y)
  {
    if references != [] { BeforeMonotone(references[..|references| - 1], x, y); }
  }

  /** Both maps are monotone over all offsets and never leave the other text. */
  lemma OffsetsMonotone(c: Composer, x: int, y: int)
    requires c.Valid() && x <= y
    ensures 0 <= SourceOffset(c, x) <= SourceOffset(c, y) <= |c.source|
    ensures 0 <= DisplayOffset(c, x) <= DisplayOffset(c, y) <= |c.text|
  {
    hide SourceOffset, DisplayOffset;
    var x', y' := Clamp(x, |c.text|), Clamp(y, |c.text|);
    SourceMonotone(c, x', y');
    ClampsSource(c, x);
    ClampsSource(c, y);
    DisplayMonotone(c, Clamp(x, |c.source|), Clamp(y, |c.source|));
    ClampsDisplay(c, x);
    ClampsDisplay(c, y);
  }

  lemma ClampsSource(c: Composer, x: int)
    requires c.Valid()
    ensures SourceOffset(c, x) == SourceOffset(c, Clamp(x, |c.text|))
  {
    hide SourceOffset, DisplayOffset;
    if x <= 0 {
      BelowOffsets(c, x);
      BelowOffsets(c, 0);
    } else if x >= |c.text| {
      AboveSource(c, x);
      AboveSource(c, |c.text|);
    }
  }

  lemma ClampsDisplay(c: Composer, x: int)
    requires c.Valid()
    ensures DisplayOffset(c, x) == DisplayOffset(c, Clamp(x, |c.source|))
  {
    hide SourceOffset, DisplayOffset;
    if x <= 0 {
      BelowOffsets(c, x);
      BelowOffsets(c, 0);
    } else if x >= |c.source| {
      AboveDisplay(c, x);
      AboveDisplay(c, |c.source|);
    }
  }

  /** Two offsets inside one reference: the nearer end is monotone too. */
  lemma InsideMonotone(c: Composer, k: nat, x: int, y: int)
    requires c.Valid() && k < |c.references| && c.DisplayTo(k) < x <= y < c.references[k].display.Max()
    ensures SourceOffset(c, x) <= SourceOffset(c, y)
  {
    assert c.Gap(k) && c.Labelled(k);
    SourceSkips(c, k, x);
    SourceSkips(c, k, y);
  }

  lemma SourceMonotone(c: Composer, x: int, y: int)
    requires c.Valid() && 0 <= x <= y <= |c.text|
    ensures 0 <= SourceOffset(c, x) <= SourceOffset(c, y) <= |c.source|
  {
    hide SourceOffset, Before, Composer.Valid;
    var j, k := Before(c.references, x), Before(c.references, y);
    BeforeMonotone(c.references, x, y);
    BeforeIs(c.references, x);
    SourceBounds(c, x);
    SourceBounds(c, y);
    if j < k {
      InOrder(c, j + 1, k);
    } else if y <= c.DisplayTo(k) {
      GapOffsets(c, j, x);
      GapOffsets(c, j, y);
    } else if x > c.DisplayTo(j) {
      InsideMonotone(c, j, x, y);
    }
  }

  lemma DisplayMonotone(c: Composer, x: int, y: int)
    requires c.Valid() && 0 <= x <= y <= |c.source|
    ensures 0 <= DisplayOffset(c, x) <= DisplayOffset(c, y) <= |c.text|
  {
    hide DisplayOffset, BeforeSource;
    var j, k := BeforeSource(c.references, x), BeforeSource(c.references, y);
    BeforeMonotone(c.references, x, y);
    DisplayBounds(c, x);
    DisplayBounds(c, y);
    assert c.Gap(j) && c.Gap(k);
    if k < |c.references| { assert c.Labelled(k); }
    if j < k {
      InOrder(c, j + 1, k);
      assert c.Labelled(j) && c.Gap(j + 1);
    } else if x <= c.SourceTo(j) && y <= c.SourceTo(k) {
      BeforeSourceIs(c.references, x);
      GapOffsets(c, j, c.DisplayFrom(j) + x - c.SourceFrom(j));
      GapOffsets(c, j, c.DisplayFrom(j) + y - c.SourceFrom(j));
    }
  }
}
