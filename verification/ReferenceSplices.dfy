/** Editing through the short labels. The new editor value is taken as one splice of the old one, and the
    splice is carried over to the source so that the surviving references still show the new value. */
module ReferenceSplices {
  import opened Wrappers
  import opened ReferenceText
  import opened ReferenceOffsets
  import opened ReferenceEditing

  /** Replace the units from `start` to `end`. */
  datatype Splice = Splice(start: nat, end: nat, text: Text)

  function Apply(t: Text, s: Splice): Text
    requires s.start <= s.end <= |t|
  {
    Cut(t, s.start, s.end, s.text)
  }

  function Replacing(c: Composer, range: Range, replacement: Text, inSource: bool): TextEdit
    requires c.Valid()
  {
    var expanded := Selection(c, range, None, inSource);
    SelectionIsAligned(c, range, None, inSource);
    OffsetsMonotone(c, expanded.location, expanded.Max());
    var start := if inSource then expanded.location else SourceOffset(c, expanded.location);
    var end := if inSource then expanded.Max() else SourceOffset(c, expanded.Max());
    TextEdit(c.source[..start] + replacement + c.source[end..], start + |replacement|)
  }

  /** The edit the native selection explains: it was replaced by what now stands in its place. */
  function AtSelection(before: Text, after: Text, selection: Range): (s: Option<Splice>)
    ensures s.Some? ==> s.value.start <= s.value.end <= |before| && Apply(before, s.value) == after
  {
    var start := Clamp(selection.location, |before|);
    var end := Min(MaxOf(start, selection.Max()), |before|);
    var inserted := |after| - |before| + end - start;
    if inserted >= 0 && start + inserted <= |after| && before[..start] == after[..start]
       && before[end..] == after[start + inserted..] then
      assert after == after[..start] + after[start..start + inserted] + after[start + inserted..];
      Some(Splice(start, end, after[start..start + inserted]))
    else None
  }

  predicate Deletes(before: Text, after: Text, from: int, removed: nat) {
    from >= 0 && from + removed <= |before| && before[..from] + before[from + removed..] == after
  }

  /** A deletion at a caret, before it or behind it. */
  function AtCaret(before: Text, after: Text, selection: Range): (s: Option<Splice>)
    ensures s.Some? ==> s.value.start <= s.value.end <= |before| && Apply(before, s.value) == after
  {
    var start := Clamp(selection.location, |before|);
    var end := Min(MaxOf(start, selection.Max()), |before|);
    var removed := |before| - |after|;
    if start != end || removed <= 0 then None
    else if Deletes(before, after, start - removed, removed) then
      assert before[..start - removed] + [] == before[..start - removed];
      Some(Splice(start - removed, start, []))
    else if Deletes(before, after, start, removed) then
      assert before[..start] + [] == before[..start];
      Some(Splice(start, start + removed, []))
    else None
  }

  /** The common beginning and end of two texts, of which the first `k` units are known to agree. */
  function CommonPrefix(a: Text, b: Text, k: nat): (n: nat)
    requires k <= |a| && k <= |b| && a[..k] == b[..k]
    ensures k <= n && n <= |a| && n <= |b| && a[..n] == b[..n]
    ensures n < |a| && n < |b| ==> a[n] != b[n]
    decreases |a| - k
  {
    if k == |a| || k == |b| || a[k] != b[k] then k
    else
      assert a[..k + 1] == a[..k] + [a[k]] && b[..k + 1] == b[..k] + [b[k]];
      CommonPrefix(a, b, k + 1)
  }

  function CommonSuffix(a: Text, b: Text, k: nat, limit: nat): (n: nat)
    requires k <= limit && limit <= |a| && limit <= |b|
    ensures k <= n <= limit
    decreases limit - k
  {
    if k == limit || a[|a| - k - 1] != b[|b| - k - 1] then k else CommonSuffix(a, b, k + 1, limit)
  }

  lemma {:induction false} SuffixAgrees(a: Text, b: Text, k: nat, limit: nat)
    requires k <= limit && limit <= |a| && limit <= |b| && a[|a| - k..] == b[|b| - k..]
    ensures var n := CommonSuffix(a, b, k, limit);
            a[|a| - n..] == b[|b| - n..] && (n < limit ==> a[|a| - n - 1] != b[|b| - n - 1])
    decreases limit - k
  {
    if k < limit && a[|a| - k - 1] == b[|b| - k - 1] {
      SuffixGrows(a, b, k);
      SuffixAgrees(a, b, k + 1, limit);
    }
  }

  /** The common beginning, one unit shorter when it would end inside a pair. */
  function PrefixOf(before: Text, after: Text): (prefix: nat)
    ensures prefix <= |before| && prefix <= |after| && before[..prefix] == after[..prefix]
  {
    var p := CommonPrefix(before, after, 0);
    var prefix := if 0 < p < |before| && Low(before[p]) then p - 1 else p;
    assert before[..prefix] == before[..p][..prefix] && after[..prefix] == after[..p][..prefix];
    prefix
  }

  function SuffixOf(before: Text, after: Text, prefix: nat): (suffix: nat)
    requires prefix <= |before| && prefix <= |after|
    ensures prefix + suffix <= |before| && prefix + suffix <= |after|
    ensures before[|before| - suffix..] == after[|after| - suffix..]
  {
    var n := CommonSuffix(before, after, 0, Min(|before|, |after|) - prefix);
    SuffixAgrees(before, after, 0, Min(|before|, |after|) - prefix);
    var suffix := if n > 0 && Low(before[|before| - n]) then n - 1 else n;
    assert before[|before| - suffix..] == before[|before| - n..][n - suffix..];
    assert after[|after| - suffix..] == after[|after| - n..][n - suffix..];
    suffix
  }

  /** The changed middle between what both texts begin and end with, moved off surrogate pairs. */
  function ByDifference(before: Text, after: Text): (s: Splice)
    ensures s.start <= s.end <= |before| && Apply(before, s) == after
  {
    hide PrefixOf, SuffixOf;
    var prefix := PrefixOf(before, after);
    var suffix := SuffixOf(before, after, prefix);
    assert after == after[..prefix] + after[prefix..|after| - suffix] + after[|after| - suffix..];
    Splice(prefix, |before| - suffix, after[prefix..|after| - suffix])
  }

  /** The three branches of `editing`, in their order. */
  function Choose(before: Text, after: Text, selection: Range): (s: Splice)
    ensures s.start <= s.end <= |before| && Apply(before, s) == after
  {
    var selected := AtSelection(before, after, selection);
    var deleted := AtCaret(before, after, selection);
    if selected.Some? then selected.value
    else if deleted.Some? then deleted.value
    else ByDifference(before, after)
  }

  function Shown(c: Composer, inSource: bool): Text {
    if inSource then c.source else c.text
  }

  function Editing(c: Composer, value: Text, selection: Range, inSource: bool): TextEdit
    requires c.Valid()
  {
    var s := Choose(Shown(c, inSource), value, selection);
    Replacing(c, Range(s.start, s.end - s.start), s.text, inSource)
  }

  method MeasurePrefix(before: Text, after: Text) returns (prefix: nat)
    ensures prefix == PrefixOf(before, after)
  {
    prefix := 0;
    while prefix < Min(|before|, |after|) && before[prefix] == after[prefix]
      invariant prefix <= |before| && prefix <= |after|
      invariant before[..prefix] == after[..prefix]
      invariant CommonPrefix(before, after, 0) == CommonPrefix(before, after, prefix)
    {
      assert before[..prefix + 1] == before[..prefix] + [before[prefix]];
      prefix := prefix + 1;
    }
    if prefix > 0 && prefix < |before| && Low(before[prefix]) { prefix := prefix - 1; }
  }

  lemma SuffixGrows(a: Text, b: Text, k: nat)
    requires k < |a| && k < |b| && a[|a| - k..] == b[|b| - k..] && a[|a| - k - 1] == b[|b| - k - 1]
    ensures a[|a| - (k + 1)..] == b[|b| - (k + 1)..]
  {
    assert a[|a| - k - 1..] == [a[|a| - k - 1]] + a[|a| - k..];
    assert b[|b| - k - 1..] == [b[|b| - k - 1]] + b[|b| - k..];
  }

  method CountSuffix(before: Text, after: Text, limit: nat) returns (suffix: nat)
    requires limit <= |before| && limit <= |after|
    ensures suffix == CommonSuffix(before, after, 0, limit)
  {
    suffix := 0;
    while suffix < limit && before[|before| - suffix - 1] == after[|after| - suffix - 1]
      invariant suffix <= limit
      invariant CommonSuffix(before, after, 0, limit) == CommonSuffix(before, after, suffix, limit)
      decreases limit - suffix
    {
      suffix := suffix + 1;
    }
  }

  method MeasureSuffix(before: Text, after: Text, prefix: nat) returns (suffix: nat)
    requires prefix <= |before| && prefix <= |after|
    ensures suffix == SuffixOf(before, after, prefix)
  {
    hide CommonSuffix;
    suffix := CountSuffix(before, after, Min(|before|, |after|) - prefix);
    if suffix > 0 && Low(before[|before| - suffix]) { suffix := suffix - 1; }
  }

  method Edit(c: Composer, value: Text, selection: Range, inSource: bool) returns (edit: TextEdit)
    requires c.Valid()
    ensures edit == Editing(c, value, selection, inSource)
  {
    hide Replacing, PrefixOf, SuffixOf, AtSelection, AtCaret;
    var before := Shown(c, inSource);
    var selected := AtSelection(before, value, selection);
    if selected.Some? {
      var Splice(start, end, inserted) := selected.value;
      return Replacing(c, Range(start, end - start), inserted, inSource);
    }
    var deleted := AtCaret(before, value, selection);
    if deleted.Some? {
      var splice := deleted.value;
      return Replacing(c, Range(splice.start, splice.end - splice.start), splice.text, inSource);
    }
    var prefix := MeasurePrefix(before, value);
    var suffix := MeasureSuffix(before, value, prefix);
    edit := Replacing(c, Range(prefix, |before| - prefix - suffix), value[prefix..|value| - suffix], inSource);
  }

  lemma PrefixKeepsPairs(before: Text, after: Text)
    requires WellFormed(before) && WellFormed(after)
    ensures var p := PrefixOf(before, after); !CutsPair(before, p) && !CutsPair(after, p)
  {
    var p := CommonPrefix(before, after, 0);
    assert forall i :: 0 <= i < p ==> before[i] == before[..p][i] && after[i] == after[..p][i];
  }

  lemma SuffixKeepsPairs(before: Text, after: Text, prefix: nat)
    requires WellFormed(before) && WellFormed(after) && prefix <= |before| && prefix <= |after|
    ensures var n := SuffixOf(before, after, prefix); !CutsPair(before, |before| - n) && !CutsPair(after, |after| - n)
  {
    hide CommonSuffix, CommonPrefix;
    var n := SuffixOf(before, after, prefix);
    var i, j := |before| - n, |after| - n;
    if n > 0 {
      assert before[i] == before[i..][0] == after[j..][0] == after[j];
      assert !Low(before[i]) || (i > 0 && High(before[i - 1]));
    }
  }

  /** The difference branch never cuts a surrogate pair of the old or of the new value. */
  lemma DifferenceKeepsPairs(before: Text, after: Text)
    requires WellFormed(before) && WellFormed(after)
    ensures var s := ByDifference(before, after);
            && !CutsPair(before, s.start) && !CutsPair(before, s.end)
            && !CutsPair(after, s.start) && !CutsPair(after, s.start + |s.text|)
  {
    hide PrefixOf, SuffixOf, CutsPair, WellFormed;
    PrefixKeepsPairs(before, after);
    SuffixKeepsPairs(before, after, PrefixOf(before, after));
  }
}
