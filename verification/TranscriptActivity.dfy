/** Grouping the parts of a message into activity and prose, and why streaming never rearranges it. */
module TranscriptActivity {
  import opened Whitespace
  import opened Wrappers

  datatype Kind = Tool | Reasoning | Boundary | Subagent | Other(name: string)
  datatype Part = Part(id: string, kind: Kind, text: string)
  datatype SegmentKind = Activity | Single(kind: Kind)
  datatype Segment = Segment(id: string, kind: SegmentKind, parts: seq<Part>, live: bool)

  /** The segments so far and the group being collected. */
  datatype Grouping = Grouping(result: seq<Segment>, group: seq<Part>)

  predicate Skipped(part: Part) {
    part.kind.Reasoning? && Trim(part.text) == ""
  }

  predicate Grouped(part: Part) {
    part.kind.Tool? || part.kind.Reasoning?
  }

  /** A part with a segment of its own. */
  predicate Alone(part: Part) {
    !Grouped(part) && !part.kind.Boundary? && (Trim(part.text) != "" || part.kind.Subagent?)
  }

  function Flushed(message: string, g: Grouping, live: bool): Grouping {
    if g.group == [] then g
    else Grouping(g.result + [Segment(message + ":activity:" + g.group[0].id, Activity, g.group, live)], [])
  }

  /** One more part; `last` is the identifier of the last part while the message streams. */
  function Take(message: string, g: Grouping, part: Part, last: Option<string>): Grouping {
    if Skipped(part) then g
    else if Grouped(part) then g.(group := g.group + [part])
    else
      var flushed := Flushed(message, g, false);
      if Alone(part) then
        flushed.(result := flushed.result + [Segment(message + ":part:" + part.id, Single(part.kind), [part],
                                                     last == Some(part.id))])
      else flushed
  }

  function Taken(message: string, parts: seq<Part>, last: Option<string>): Grouping {
    if parts == [] then Grouping([], [])
    else Take(message, Taken(message, parts[..|parts| - 1], last), parts[|parts| - 1], last)
  }

  function LastID(parts: seq<Part>, streaming: bool): Option<string> {
    if streaming && parts != [] then Some(parts[|parts| - 1].id) else None
  }

  function Segments(message: string, parts: seq<Part>, streaming: bool): seq<Segment> {
    Flushed(message, Taken(message, parts, LastID(parts, streaming)), streaming).result
  }

  method ReadSegments(message: string, parts: seq<Part>, streaming: bool) returns (result: seq<Segment>)
    ensures result == Segments(message, parts, streaming)
  {
    result := [];
    var group: seq<Part> := [];
    var k := 0;
    while k < |parts|
      invariant 0 <= k <= |parts| && Grouping(result, group) == Taken(message, parts[..k], LastID(parts, streaming))
    {
      var part := parts[k];
      assert parts[..k + 1][..k] == parts[..k];
      k := k + 1;
      if part.kind.Reasoning? && Trim(part.text) == "" { continue; }
      if part.kind.Tool? || part.kind.Reasoning? {
        group := group + [part];
      } else {
        if group != [] {
          result := result + [Segment(message + ":activity:" + group[0].id, Activity, group, false)];
          group := [];
        }
        if !part.kind.Boundary? && (Trim(part.text) != "" || part.kind.Subagent?) {
          var live := streaming && part.id == parts[|parts| - 1].id;
          result := result + [Segment(message + ":part:" + part.id, Single(part.kind), [part], live)];
        }
      }
    }
    assert parts[..k] == parts;
    if group != [] { result := result + [Segment(message + ":activity:" + group[0].id, Activity, group, streaming)]; }
  }

  function PartsOf(segments: seq<Segment>): seq<Part> {
    if segments == [] then [] else PartsOf(segments[..|segments| - 1]) + segments[|segments| - 1].parts
  }

  predicate Shows(part: Part) {
    !Skipped(part) && (Grouped(part) || Alone(part))
  }

  function Shown(parts: seq<Part>): seq<Part> {
    if parts == [] then []
    else Shown(parts[..|parts| - 1]) + if Shows(parts[|parts| - 1]) then [parts[|parts| - 1]] else []
  }

  lemma PartsOfMore(segments: seq<Segment>, s: Segment)
    ensures PartsOf(segments + [s]) == PartsOf(segments) + s.parts
  {
    assert (segments + [s])[..|segments + [s]| - 1] == segments;
  }

  lemma TakeKeepsParts(message: string, g: Grouping, part: Part, last: Option<string>)
    ensures var h := Take(message, g, part, last);
            PartsOf(h.result) + h.group == PartsOf(g.result) + g.group + if Shows(part) then [part] else []
  {
    hide PartsOf, Trim, Flushed;
    var f := Flushed(message, g, false);
    FlushKeepsParts(message, g, false);
    assert f.group == [] by { FlushEmpties(message, g, false); }
    PartsOfMore(f.result, Segment(message + ":part:" + part.id, Single(part.kind), [part], last == Some(part.id)));
  }

  lemma FlushEmpties(message: string, g: Grouping, live: bool)
    ensures Flushed(message, g, live).group == []
  {
  }

  lemma FlushKeepsParts(message: string, g: Grouping, live: bool)
    ensures PartsOf(Flushed(message, g, live).result) == PartsOf(g.result) + g.group
  {
    if g.group != [] {
      PartsOfMore(g.result, Segment(message + ":activity:" + g.group[0].id, Activity, g.group, live));
    }
  }

  lemma {:induction false} TakenKeepsParts(message: string, parts: seq<Part>, last: Option<string>)
    ensures var g := Taken(message, parts, last); PartsOf(g.result) + g.group == Shown(parts)
  {
    hide Take, Shows;
    if parts != [] {
      TakenKeepsParts(message, parts[..|parts| - 1], last);
      TakeKeepsParts(message, Taken(message, parts[..|parts| - 1], last), parts[|parts| - 1], last);
    }
  }

  /** The segments hold exactly the parts that show, in their order. */
  lemma SegmentsHoldParts(message: string, parts: seq<Part>, streaming: bool)
    ensures PartsOf(Segments(message, parts, streaming)) == Shown(parts)
  {
    hide Taken;
    var last := LastID(parts, streaming);
    TakenKeepsParts(message, parts, last);
    FlushKeepsParts(message, Taken(message, parts, last), streaming);
  }

  ghost predicate Distinct(parts: seq<Part>) {
    forall i, j :: 0 <= i < j < |parts| ==> parts[i].id != parts[j].id
  }

  lemma {:induction false} NoneLive(message: string, parts: seq<Part>, last: Option<string>)
    requires forall i :: 0 <= i < |parts| ==> last != Some(parts[i].id)
    ensures forall s :: s in Taken(message, parts, last).result ==> !s.live
  {
    if parts != [] { NoneLive(message, parts[..|parts| - 1], last); }
  }

  /** Only the last segment can be live. */
  lemma OnlyLastLive(message: string, parts: seq<Part>, streaming: bool)
    requires Distinct(parts)
    ensures var s := Segments(message, parts, streaming); forall k :: 0 <= k < |s| - 1 ==> !s[k].live
  {
    if parts != [] {
      var last := LastID(parts, streaming);
      var before := Taken(message, parts[..|parts| - 1], last);
      NoneLive(message, parts[..|parts| - 1], last);
      forall k | 0 <= k < |before.result|
        ensures !before.result[k].live
      {
        assert before.result[k] in before.result;
      }
    }
  }

  /** And it is, when the message streams a part that shows. */
  lemma LastIsLive(message: string, parts: seq<Part>)
    requires parts != [] && Shows(parts[|parts| - 1])
    ensures var s := Segments(message, parts, true);
            s != [] && s[|s| - 1].live && parts[|parts| - 1] in s[|s| - 1].parts
  {
    hide Trim;
    var last := LastID(parts, true);
    var g := Taken(message, parts, last);
    assert g == Take(message, Taken(message, parts[..|parts| - 1], last), parts[|parts| - 1], last);
  }

  /** The same segment, whether live or not. */
  ghost predicate SameSegment(a: Segment, b: Segment) {
    a.id == b.id && a.kind == b.kind && a.parts == b.parts
  }

  /** Segment `b` is `a` grown: the same, or the same activity with more parts. */
  ghost predicate Grows(a: Segment, b: Segment) {
    a.id == b.id && a.kind == b.kind && a.parts <= b.parts && (a.kind.Single? ==> a.parts == b.parts)
  }

  ghost predicate SameStart(a: seq<Segment>, b: seq<Segment>) {
    |a| <= |b| && forall k :: 0 <= k < |a| ==> SameSegment(a[k], b[k])
  }

  /** `h` comes from `g` by taking more parts: segments stay, and the group stays open or has become a segment. */
  ghost predicate Later(message: string, g: Grouping, h: Grouping) {
    && SameStart(g.result, h.result)
    && (g.group != [] ==>
          if |h.result| == |g.result| then g.group <= h.group
          else Grows(Segment(message + ":activity:" + g.group[0].id, Activity, g.group, false), h.result[|g.result|]))
  }

  lemma TakeIsLater(message: string, g: Grouping, h: Grouping, part: Part, last: Option<string>)
    requires Later(message, g, h)
    ensures Later(message, g, Take(message, h, part, last))
  {
  }

  lemma {:induction false} LiveAside(message: string, parts: seq<Part>, a: Option<string>, b: Option<string>)
    ensures Taken(message, parts, a).group == Taken(message, parts, b).group
    ensures |Taken(message, parts, a).result| == |Taken(message, parts, b).result|
    ensures SameStart(Taken(message, parts, a).result, Taken(message, parts, b).result)
  {
    if parts != [] { LiveAside(message, parts[..|parts| - 1], a, b); }
  }

  lemma {:induction false} MoreIsLater(message: string, parts: seq<Part>, more: seq<Part>, a: Option<string>,
      b: Option<string>)
    ensures Later(message, Taken(message, parts, a), Taken(message, parts + more, b))
  {
    hide Take, Later;
    if more == [] {
      assert parts + more == parts;
      LiveAside(message, parts, a, b);
      SameIsLater(message, Taken(message, parts, a), Taken(message, parts, b));
    } else {
      var all := parts + more;
      assert all[..|all| - 1] == parts + more[..|more| - 1];
      MoreIsLater(message, parts, more[..|more| - 1], a, b);
      TakeIsLater(message, Taken(message, parts, a), Taken(message, all[..|all| - 1], b), all[|all| - 1], b);
    }
  }

  lemma SameIsLater(message: string, g: Grouping, h: Grouping)
    requires g.group == h.group && |g.result| == |h.result| && SameStart(g.result, h.result)
    ensures Later(message, g, h)
  {
  }

  /** Prefix stability: appending parts keeps every segment but the last as it is, and the last one keeps its identifier
      and at most grows. */
  lemma AppendingKeepsSegments(message: string, parts: seq<Part>, more: seq<Part>, before: bool, after: bool, k: nat)
    requires k < |Segments(message, parts, before)|
    ensures var s, t := Segments(message, parts, before), Segments(message, parts + more, after);
            k < |t| && Grows(s[k], t[k]) && (k < |s| - 1 ==> SameSegment(s[k], t[k]))
  {
    hide Taken;
    MoreIsLater(message, parts, more, LastID(parts, before), LastID(parts + more, after));
  }
}
