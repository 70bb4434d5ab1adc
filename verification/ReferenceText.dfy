/** The composer's text in two forms: the stored source with full links, and the editor's text with
    short labels. All offsets count UTF-16 code units. */
module ReferenceText {
  type Unit = u: int | 0 <= u < 0x1_0000 witness 0
  type Text = seq<Unit>

  /** Section 2 of RFC 2781: a high surrogate and the low surrogate behind it are one character. */
  predicate High(u: Unit) {
    0xD800 <= u <= 0xDBFF
  }

  predicate Low(u: Unit) {
    0xDC00 <= u <= 0xDFFF
  }

  predicate WellFormed(t: Text) {
    forall i :: 0 <= i < |t| ==>
      (High(t[i]) ==> i + 1 < |t| && Low(t[i + 1])) && (Low(t[i]) ==> i > 0 && High(t[i - 1]))
  }

  predicate CutsPair(t: Text, i: int) {
    0 < i < |t| && High(t[i - 1]) && Low(t[i])
  }

  /** `NSRange`. */
  datatype Range = Range(location: int, length: int) {
    function Max(): int {
      location + length
    }
  }

  datatype Kind = Command | Skill | FileReference

  datatype Reference = Reference(kind: Kind, source: Range, display: Range, name: Text)

  datatype TextEdit = TextEdit(text: Text, cursor: int)

  /** The text with the units from `a` to `b` replaced by `w`. */
  function Cut(t: Text, a: int, b: int, w: Text): Text
    requires 0 <= a <= b <= |t|
  {
    t[..a] + w + t[b..]
  }

  function Clamp(x: int, high: nat): (r: int)
    ensures 0 <= r <= high
  {
    var low := if x < 0 then 0 else x;
    if low < high then low else high
  }

  function Min(a: int, b: int): int {
    if a < b then a else b
  }

  function MaxOf(a: int, b: int): int {
    if a < b then b else a
  }

  datatype Composer = Composer(source: Text, text: Text, references: seq<Reference>) {

    /** Where the gap before reference `k`, or after the last one, starts and ends. */
    function SourceFrom(k: nat): int
      requires k <= |references|
    {
      if k == 0 then 0 else references[k - 1].source.Max()
    }

    function SourceTo(k: nat): int
      requires k <= |references|
    {
      if k == |references| then |source| else references[k].source.location
    }

    function DisplayFrom(k: nat): int
      requires k <= |references|
    {
      if k == 0 then 0 else references[k - 1].display.Max()
    }

    function DisplayTo(k: nat): int
      requires k <= |references|
    {
      if k == |references| then |text| else references[k].display.location
    }

    /** The same gap stands between the references on both sides. */
    ghost predicate Gap(k: nat)
      requires k <= |references|
    {
      && 0 <= SourceFrom(k) <= SourceTo(k) <= |source|
      && 0 <= DisplayFrom(k) <= DisplayTo(k) <= |text|
      && source[SourceFrom(k)..SourceTo(k)] == text[DisplayFrom(k)..DisplayTo(k)]
    }

    ghost predicate Labelled(k: nat)
      requires k < |references|
    {
      var r := references[k];
      && r.source.length > 0 && r.display.length > 0
      && 0 <= r.source.location && r.source.Max() <= |source|
      && 0 <= r.display.location && r.display.Max() <= |text|
      && text[r.display.location..r.display.Max()] == r.name
    }

    /** The display text is the source with every reference shown as its label and nothing else changed. */
    ghost predicate Valid() {
      && (forall k :: 0 <= k <= |references| ==> Gap(k))
      && (forall k :: 0 <= k < |references| ==> Labelled(k))
    }
  }

  function SourceScan(references: seq<Reference>, offset: int, delta: int, length: nat): int {
    if references == [] then Clamp(offset + delta, length)
    else
      var r := references[0];
      if offset <= r.display.location then Clamp(offset + delta, length)
      else if offset < r.display.Max() then
        if offset - r.display.location < r.display.length / 2 then r.source.location else r.source.Max()
      else SourceScan(references[1..], offset, delta + r.source.length - r.display.length, length)
  }

  function SourceOffset(c: Composer, offset: int): int {
    SourceScan(c.references, offset, 0, |c.source|)
  }

  function DisplayScan(references: seq<Reference>, offset: int, delta: int, length: nat): int {
    if references == [] then Clamp(offset - delta, length)
    else
      var r := references[0];
      if offset <= r.source.location then Clamp(offset - delta, length)
      else if offset < r.source.Max() then r.display.Max()
      else DisplayScan(references[1..], offset, delta + r.source.length - r.display.length, length)
  }

  function DisplayOffset(c: Composer, offset: int): int {
    DisplayScan(c.references, offset, 0, |c.text|)
  }

  method ToSource(c: Composer, displayOffset: int) returns (offset: int)
    requires c.Valid()
    ensures offset == SourceOffset(c, displayOffset)
  {
    var delta, i := 0, 0;
    while i < |c.references|
      invariant 0 <= i <= |c.references|
      invariant SourceOffset(c, displayOffset) == SourceScan(c.references[i..], displayOffset, delta, |c.source|)
    {
      var reference := c.references[i];
      assert c.references[i..][1..] == c.references[i + 1..] && c.Labelled(i);
      var range := reference.display;
      if displayOffset <= range.location { break; }
      if displayOffset < range.Max() {
        return if displayOffset - range.location < range.length / 2 then reference.source.location
               else reference.source.Max();
      }
      delta := delta + reference.source.length - range.length;
      i := i + 1;
    }
    offset := Clamp(displayOffset + delta, |c.source|);
  }

  method ToDisplay(c: Composer, sourceOffset: int) returns (offset: int)
    ensures offset == DisplayOffset(c, sourceOffset)
  {
    var delta, i := 0, 0;
    while i < |c.references|
      invariant 0 <= i <= |c.references|
      invariant DisplayOffset(c, sourceOffset) == DisplayScan(c.references[i..], sourceOffset, delta, |c.text|)
    {
      var reference := c.references[i];
      assert c.references[i..][1..] == c.references[i + 1..];
      if sourceOffset <= reference.source.location { break; }
      if sourceOffset < reference.source.Max() { return reference.display.Max(); }
      delta := delta + reference.source.length - reference.display.length;
      i := i + 1;
    }
    offset := Clamp(sourceOffset - delta, |c.text|);
  }
}
