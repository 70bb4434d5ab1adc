/** After an edit the composer is made anew from the source: when that finds just the references that the edit kept. */
module ReferenceRescan {
  import opened Wrappers
  import opened ReferenceText
  import opened ReferenceOffsets
  import opened ReferenceEditing
  import opened ReferenceSplices
  import opened ReferenceProjection
  import opened MarkdownLines
  import opened ReferenceScan
  import opened ReferenceLinks

  /** The scanner comes to stand at `x`; at the end it always does. */
  predicate Visits(units: Text, code: seq<Range>, decode: Decoder, i: nat, x: nat)
    decreases |units| - i
  {
    if i >= |units| then x == |units|
    else i == x || (i < x && Visits(units, code, decode, MoveAt(units, code, decode, i).next, x))
  }

  /** The links the scanner finds before it stands at or behind `x`. */
  function Between(units: Text, code: seq<Range>, decode: Decoder, i: nat, x: nat): seq<Link>
    decreases |units| - i
  {
    if i >= x || i >= |units| then []
    else
      var m := MoveAt(units, code, decode, i);
      (if m.link.Some? then [m.link.value] else []) + Between(units, code, decode, m.next, x)
  }

  lemma {:induction false} ScanSplits(units: Text, code: seq<Range>, decode: Decoder, i: nat, x: nat)
    requires Visits(units, code, decode, i, x) && x <= |units|
    ensures LinksFrom(units, code, decode, i) == Between(units, code, decode, i, x) + LinksFrom(units, code, decode, x)
    ensures forall l :: l in Between(units, code, decode, i, x) ==> i <= l.range.location < x
    decreases |units| - i
  {
    hide MoveAt;
    if i < |units| && i != x {
      ScanSplits(units, code, decode, MoveAt(units, code, decode, i).next, x);
    }
  }

  lemma {:induction false} EndIsVisited(units: Text, code: seq<Range>, decode: Decoder, i: nat)
    ensures Visits(units, code, decode, i, |units|)
    decreases |units| - i
  {
    hide MoveAt;
    if i < |units| { EndIsVisited(units, code, decode, MoveAt(units, code, decode, i).next); }
  }

  /** The scanner stands at both ends of every link it finds. */
  lemma {:induction false} LinkIsVisited(units: Text, code: seq<Range>, decode: Decoder, i: nat, n: nat)
    requires n < |LinksFrom(units, code, decode, i)|
    ensures var r := LinksFrom(units, code, decode, i)[n].range;
            && i <= r.location < r.Max() <= |units|
            && Visits(units, code, decode, i, r.location) && Visits(units, code, decode, i, r.Max())
    decreases |units| - i
  {
    hide MoveAt;
    var m := MoveAt(units, code, decode, i);
    if m.link.Some? {
      if n > 0 {
        LinkIsVisited(units, code, decode, m.next, n - 1);
      } else {
        StandsHere(units, code, decode, m.next);
      }
    } else {
      LinkIsVisited(units, code, decode, m.next, n);
    }
  }

  lemma StandsHere(units: Text, code: seq<Range>, decode: Decoder, x: nat)
    requires x <= |units|
    ensures Visits(units, code, decode, x, x)
  {
  }

  /** The first `n` links lie before `x` and the others do not: there the scan can be cut. */
  lemma ScanCuts(units: Text, code: seq<Range>, decode: Decoder, x: nat, n: nat)
    requires Visits(units, code, decode, 0, x) && x <= |units|
    requires var links := LinksFrom(units, code, decode, 0);
             n <= |links| && (n > 0 ==> links[n - 1].range.location < x)
             && (n < |links| ==> x <= links[n].range.location)
    ensures var links := LinksFrom(units, code, decode, 0);
            Between(units, code, decode, 0, x) == links[..n] && LinksFrom(units, code, decode, x) == links[n..]
  {
    hide Visits, Between, LinksFrom;
    var links := LinksFrom(units, code, decode, 0);
    var front, back := Between(units, code, decode, 0, x), LinksFrom(units, code, decode, x);
    ScanSplits(units, code, decode, 0, x);
    LinksAreSorted(units, code, decode, x);
    forall m | 0 <= m < |links|
      ensures m < |front| <==> links[m].range.location < x
    {
      if m < |front| {
        assert links[m] == front[m] && front[m] in front;
      } else {
        assert links[m] == back[m - |front|];
        assert LinkRanges(back)[m - |front|].location >= x;
      }
    }
    CountIs(links, x, |front|, n);
  }

  lemma CountIs(links: seq<Link>, x: nat, k: nat, n: nat)
    requires k <= |links| && forall m :: 0 <= m < |links| ==> (m < k <==> links[m].range.location < x)
    requires n <= |links| && (n > 0 ==> links[n - 1].range.location < x)
             && (n < |links| ==> x <= links[n].range.location)
    ensures k == n
  {
  }

  /** The end of the code range an offset lies in. */
  function CodeEnd(code: seq<Range>, i: int): Option<int> {
    var r := Covering(code, i);
    if r.Some? then Some(r.value.Max()) else None
  }

  predicate Alike(u: Text, v: Text, a: nat) {
    a <= |u| && a <= |v| && u[..a] == v[..a]
  }

  lemma AlikeAt(u: Text, v: Text, a: nat, i: nat)
    requires Alike(u, v, a) && i < a
    ensures u[i] == v[i]
  {
    assert u[..a][i] == v[..a][i];
  }

  lemma AlikeSlice(u: Text, v: Text, a: nat, i: nat, j: nat)
    requires Alike(u, v, a) && i <= j <= a
    ensures u[i..j] == v[i..j]
  {
    assert u[..a][i..j] == u[i..j] && v[..a][i..j] == v[i..j];
  }

  lemma {:induction false} ClosingLocal(u: Text, v: Text, a: nat, position: nat, depth: nat, open: Unit, close: Unit)
    requires Alike(u, v, a)
    ensures var r := Closing(u, position, depth, open, close);
            r.Some? && r.value < a ==> Closing(v, position, depth, open, close) == r
    decreases |u| - position
  {
    if position < a {
      AlikeAt(u, v, a, position);
      if u[position] == BACKSLASH {
        ClosingLocal(u, v, a, position + 2, depth, open, close);
      } else {
        var deeper := if u[position] == open then depth + 1 else depth;
        if u[position] != close {
          ClosingLocal(u, v, a, position + 1, deeper, open, close);
        } else if deeper > 0 {
          ClosingLocal(u, v, a, position + 1, deeper - 1, open, close);
        }
      }
    }
  }

  /** A move to `i + 1` is no link, and any other one is a completed pair of brackets and parentheses. */
  lemma LinkLocalOne(u: Text, v: Text, decode: Decoder, a: nat, i: nat)
    requires Alike(u, v, a) && i < a && LinkAt(u, decode, i).next <= a && LinkAt(u, decode, i).next != i + 1
    ensures LinkAt(v, decode, i) == LinkAt(u, decode, i)
  {
    hide Closing, Alike;
    var left := if ImageAt(u, i) then i + 1 else i;
    var right := Closing(u, left + 1, 0, OPEN_BRACKET, CLOSE_BRACKET);
    var end := Closing(u, right.value + 2, 0, OPEN_PARENTHESIS, CLOSE_PARENTHESIS);
    assert Alike(u, v, a) && a <= |v| by { Lengths(u, v, a); }
    ClosingLocal(u, v, a, left + 1, 0, OPEN_BRACKET, CLOSE_BRACKET);
    ClosingLocal(u, v, a, right.value + 2, 0, OPEN_PARENTHESIS, CLOSE_PARENTHESIS);
    AlikeAt(u, v, a, i);
    AlikeAt(u, v, a, i + 1);
    AlikeAt(u, v, a, right.value + 1);
    AlikeSlice(u, v, a, left + 1, right.value);
    AlikeSlice(u, v, a, right.value + 2, end.value);
  }

  lemma Lengths(u: Text, v: Text, a: nat)
    requires Alike(u, v, a)
    ensures a <= |u| && a <= |v| && Alike(v, u, a)
  {
  }

  lemma NoLinkStep(units: Text, decode: Decoder, i: nat)
    requires i < |units| && LinkAt(units, decode, i).next == i + 1
    ensures LinkAt(units, decode, i) == Move(i + 1, None)
  {
  }

  lemma LinkLocal(u: Text, v: Text, decode: Decoder, a: nat, i: nat)
    requires Alike(u, v, a) && i < a && LinkAt(u, decode, i).next <= a && LinkAt(v, decode, i).next <= a
    ensures LinkAt(v, decode, i) == LinkAt(u, decode, i)
  {
    hide LinkAt;
    if LinkAt(u, decode, i).next != i + 1 {
      LinkLocalOne(u, v, decode, a, i);
    } else if LinkAt(v, decode, i).next != i + 1 {
      LinkLocalOne(v, u, decode, a, i);
    } else {
      NoLinkStep(u, decode, i);
      NoLinkStep(v, decode, i);
    }
  }

  lemma {:induction false} TicksLocal(u: Text, v: Text, a: nat, i: nat)
    requires Alike(u, v, a) && i < a && u[a - 1] != BACKTICK
    ensures Ticks(u, i) == Ticks(v, i) && i + Ticks(u, i) < a
    decreases a - i
  {
    AlikeAt(u, v, a, i);
    if u[i] == BACKTICK { TicksLocal(u, v, a, i + 1); }
  }

  lemma {:induction false} TicksCloseLocal(u: Text, v: Text, a: nat, next: nat, count: nat)
    requires Alike(u, v, a) && 0 < a && u[a - 1] != BACKTICK && count > 0
    ensures var r := TicksClose(u, next, count); r.Some? && r.value <= a ==> TicksClose(v, next, count) == r
    decreases |u| - next
  {
    if next < a {
      AlikeAt(u, v, a, next);
      TicksLocal(u, v, a, next);
      if u[next] != BACKTICK {
        TicksCloseLocal(u, v, a, next + 1, count);
      } else if Ticks(u, next) != count {
        TicksCloseLocal(u, v, a, next + Ticks(u, next), count);
      }
    } else {
      LateClose(u, next, count);
    }
  }

  lemma {:induction false} LateClose(u: Text, next: nat, count: nat)
    requires count > 0
    ensures TicksClose(u, next, count).Some? ==> TicksClose(u, next, count).value > next
    decreases |u| - next
  {
    if next < |u| {
      if u[next] != BACKTICK {
        LateClose(u, next + 1, count);
      } else if Ticks(u, next) != count {
        LateClose(u, next + Ticks(u, next), count);
      }
    }
  }

  lemma {:induction false} FindLocal(u: Text, v: Text, a: nat, i: nat, pattern: Text)
    requires Alike(u, v, a)
    ensures var r := FindFrom(u, i, pattern);
            r.Some? && r.value + |pattern| <= a ==> FindFrom(v, i, pattern) == r
    decreases |u| - i
  {
    if i + |pattern| <= a {
      AlikeSlice(u, v, a, i, i + |pattern|);
      if !StandsAt(u, i, pattern) && i < |u| { FindLocal(u, v, a, i + 1, pattern); }
    }
  }

  lemma CodeEndIs(units: Text, code: seq<Range>, decode: Decoder, i: nat)
    requires i < |units|
    ensures CodeEnd(code, i).Some? ==>
              i < CodeEnd(code, i).value && MoveAt(units, code, decode, i) == Move(CodeEnd(code, i).value, None)
    ensures CodeEnd(code, i).None? <==> Covering(code, i).None?
  {
    CoveringIs(code, i);
  }

  lemma TickMoveLocal(u: Text, v: Text, a: nat, i: nat)
    requires Alike(u, v, a) && i < a && u[a - 1] != BACKTICK && u[i] == BACKTICK
    requires TicksClose(u, i + Ticks(u, i), Ticks(u, i)).GetOr(i + Ticks(u, i)) <= a
    requires TicksClose(v, i + Ticks(v, i), Ticks(v, i)).GetOr(i + Ticks(v, i)) <= a
    ensures TicksClose(u, i + Ticks(u, i), Ticks(u, i)).GetOr(i + Ticks(u, i))
         == TicksClose(v, i + Ticks(v, i), Ticks(v, i)).GetOr(i + Ticks(v, i))
  {
    hide TicksClose;
    var n := Ticks(u, i);
    TicksLocal(u, v, a, i);
    AlikeAt(u, v, a, a - 1);
    TicksCloseLocal(u, v, a, i + n, n);
    TicksCloseLocal(v, u, a, i + n, n);
  }

  lemma CommentLocal(u: Text, v: Text, a: nat, i: nat)
    requires Alike(u, v, a) && i < a
    requires StandsAt(u, i, COMMENT_START) && CommentEnd(u, i) <= a
    requires StandsAt(v, i, COMMENT_START) ==> CommentEnd(v, i) <= a
    ensures StandsAt(v, i, COMMENT_START) && CommentEnd(v, i) == CommentEnd(u, i)
  {
    hide FindFrom;
    AlikeSlice(u, v, a, i, i + 4);
    FindLocal(u, v, a, i + 4, COMMENT_END);
    FindLocal(v, u, a, i + 4, COMMENT_END);
  }

  lemma MoveIs(units: Text, code: seq<Range>, decode: Decoder, i: nat)
    requires i < |units| && CodeEnd(code, i).None?
    ensures MoveAt(units, code, decode, i)
         == if units[i] == BACKSLASH then Move(i + 2, None)
            else if units[i] == BACKTICK then
              Move(TicksClose(units, i + Ticks(units, i), Ticks(units, i)).GetOr(i + Ticks(units, i)), None)
            else if StandsAt(units, i, COMMENT_START) then Move(CommentEnd(units, i), None)
            else LinkAt(units, decode, i)
  {
    hide TicksClose, Ticks, FindFrom, LinkAt, StandsAt;
    CoveringIs(code, i);
  }

  /** A move that ends at or before `a` in both of two texts that begin with the same `a` units is the same move, if the
      last of these is no backtick. */
  lemma MoveLocal(u: Text, v: Text, cu: seq<Range>, cv: seq<Range>, decode: Decoder, a: nat, i: nat)
    requires Alike(u, v, a) && i < a && u[a - 1] != BACKTICK && CodeEnd(cu, i) == CodeEnd(cv, i)
    requires MoveAt(u, cu, decode, i).next <= a && MoveAt(v, cv, decode, i).next <= a
    ensures MoveAt(v, cv, decode, i) == MoveAt(u, cu, decode, i)
  {
    CodeEndIs(u, cu, decode, i);
    CodeEndIs(v, cv, decode, i);
    if CodeEnd(cu, i).None? {
      AlikeAt(u, v, a, i);
      MoveIs(u, cu, decode, i);
      MoveIs(v, cv, decode, i);
      hide MoveAt, CodeEnd, Alike, LinkAt, TicksClose, Ticks, CommentEnd, StandsAt;
      Lengths(u, v, a);
      if u[i] == BACKTICK {
        TickMoveLocal(u, v, a, i);
      } else if u[i] != BACKSLASH {
        if StandsAt(u, i, COMMENT_START) {
          CommentLocal(u, v, a, i);
        } else if StandsAt(v, i, COMMENT_START) {
          CommentLocal(v, u, a, i);
        } else {
          LinkLocal(u, v, decode, a, i);
        }
      }
    }
  }

  /** No move before `a` can pass the end of the text, since no backslash stands there. */
  lemma NextWithin(units: Text, code: seq<Range>, decode: Decoder, i: nat)
    requires i < |units| && ReferenceEditing.Within(code, |units|) && units[|units| - 1] != BACKSLASH
    ensures MoveAt(units, code, decode, i).next <= |units|
  {
    CoveringIs(code, i);
    CodeEndIs(units, code, decode, i);
    if CodeEnd(code, i).None? {
      MoveIs(units, code, decode, i);
      hide MoveAt, LinkAt;
      if StandsAt(units, i, COMMENT_START) { FindWithin(units, i + 4, COMMENT_END); }
    }
  }

  lemma FindWithin(units: Text, i: nat, pattern: Text)
    ensures FindFrom(units, i, pattern).Some? ==> FindFrom(units, i, pattern).value + |pattern| <= |units|
  {
  }

  lemma NextStays(units: Text, code: seq<Range>, decode: Decoder, i: nat, a: nat)
    requires i < a <= |units| && ReferenceEditing.Within(code, |units|) && units[a - 1] != BACKSLASH
    requires Visits(units, code, decode, i, a)
    ensures MoveAt(units, code, decode, i).next <= a
    ensures Visits(units, code, decode, MoveAt(units, code, decode, i).next, a)
  {
    hide MoveAt;
    if a == |units| { NextWithin(units, code, decode, i); }
  }

  /** The scan of a common beginning is the same in both texts, as long as it stops at its end in both. */
  lemma {:induction false} PrefixScan(u: Text, v: Text, cu: seq<Range>, cv: seq<Range>, decode: Decoder, a: nat, i: nat)
    requires Alike(u, v, a) && i <= a && (a > 0 ==> u[a - 1] != BACKTICK && u[a - 1] != BACKSLASH)
    requires ReferenceEditing.Within(cu, |u|) && ReferenceEditing.Within(cv, |v|)
    requires forall x :: 0 <= x < a ==> CodeEnd(cu, x) == CodeEnd(cv, x)
    requires Visits(u, cu, decode, i, a) && Visits(v, cv, decode, i, a)
    ensures Between(u, cu, decode, i, a) == Between(v, cv, decode, i, a)
    decreases a - i
  {
    hide MoveAt, CodeEnd, Visits, Alike;
    Lengths(u, v, a);
    if i < a {
      AlikeAt(u, v, a, a - 1);
      NextStays(u, cu, decode, i, a);
      NextStays(v, cv, decode, i, a);
      MoveLocal(u, v, cu, cv, decode, a, i);
      PrefixScan(u, v, cu, cv, decode, a, MoveAt(u, cu, decode, i).next);
    }
  }

  /** From `b` on, `u` reads as `v` does `shift` units further on. */
  predicate Behind(u: Text, v: Text, b: nat, shift: int) {
    b <= |u| && b + shift >= 0 && |v| == |u| + shift && forall k :: b <= k < |u| ==> v[k + shift] == u[k]
  }

  predicate Later(r: Option<nat>, q: Option<nat>, shift: int) {
    q.Some? == r.Some? && (r.Some? ==> q.value == r.value + shift)
  }

  lemma {:induction false} ClosingShift(u: Text, v: Text, b: nat, shift: int, position: nat, depth: nat, open: Unit,
      close: Unit)
    requires Behind(u, v, b, shift) && b <= position
    ensures Later(Closing(u, position, depth, open, close), Closing(v, position + shift, depth, open, close), shift)
    decreases |u| - position
  {
    if position < |u| {
      if u[position] == BACKSLASH {
        ClosingShift(u, v, b, shift, position + 2, depth, open, close);
      } else {
        var deeper := if u[position] == open then depth + 1 else depth;
        if u[position] != close {
          ClosingShift(u, v, b, shift, position + 1, deeper, open, close);
        } else if deeper > 0 {
          ClosingShift(u, v, b, shift, position + 1, deeper - 1, open, close);
        }
      }
    }
  }

  lemma {:induction false} TicksShift(u: Text, v: Text, b: nat, shift: int, i: nat)
    requires Behind(u, v, b, shift) && b <= i
    ensures Ticks(v, i + shift) == Ticks(u, i)
    decreases |u| - i
  {
    if i < |u| && u[i] == BACKTICK { TicksShift(u, v, b, shift, i + 1); }
  }

  lemma {:induction false} TicksCloseShift(u: Text, v: Text, b: nat, shift: int, next: nat, count: nat)
    requires Behind(u, v, b, shift) && b <= next
    ensures Later(TicksClose(u, next, count), TicksClose(v, next + shift, count), shift)
    decreases |u| - next
  {
    if next < |u| {
      TicksShift(u, v, b, shift, next);
      if u[next] != BACKTICK {
        TicksCloseShift(u, v, b, shift, next + 1, count);
      } else if Ticks(u, next) != count {
        TicksCloseShift(u, v, b, shift, next + Ticks(u, next), count);
      }
    }
  }

  lemma SliceShift(u: Text, v: Text, b: nat, shift: int, i: nat, j: nat)
    requires Behind(u, v, b, shift) && b <= i <= j <= |u|
    ensures v[i + shift..j + shift] == u[i..j]
  {
    forall k | 0 <= k < j - i
      ensures v[i + shift..j + shift][k] == u[i..j][k]
    {
      assert v[i + k + shift] == u[i + k];
    }
  }

  lemma StandsShift(u: Text, v: Text, b: nat, shift: int, i: nat, pattern: Text)
    requires Behind(u, v, b, shift) && b <= i
    ensures StandsAt(v, i + shift, pattern) == StandsAt(u, i, pattern)
  {
    if i + |pattern| <= |u| { SliceShift(u, v, b, shift, i, i + |pattern|); }
  }

  lemma {:induction false} FindShift(u: Text, v: Text, b: nat, shift: int, i: nat, pattern: Text)
    requires Behind(u, v, b, shift) && b <= i
    ensures Later(FindFrom(u, i, pattern), FindFrom(v, i + shift, pattern), shift)
    decreases |u| - i
  {
    StandsShift(u, v, b, shift, i, pattern);
    if i + |pattern| <= |u| && !StandsAt(u, i, pattern) && i < |u| {
      hide StandsAt, Behind;
      FindShift(u, v, b, shift, i + 1, pattern);
    }
  }

  function MovedLink(link: Link, shift: int): Link {
    link.(range := Range(link.range.location + shift, link.range.length))
  }

  /** The same move further on. */
  ghost predicate Further(m: Move, q: Move, shift: int) {
    q.next == m.next + shift && q.link == if m.link.Some? then Some(MovedLink(m.link.value, shift)) else None
  }

  lemma UnitShift(u: Text, v: Text, b: nat, shift: int, i: nat)
    requires Behind(u, v, b, shift) && b <= i
    ensures i + shift >= 0 && |v| == |u| + shift
    ensures i < |u| ==> v[i + shift] == u[i]
    ensures i < |u| ==> ImageAt(v, i + shift) == ImageAt(u, i)
  {
    if i + 1 < |u| { assert v[i + 1 + shift] == u[i + 1]; }
  }

  /** The destination behind a closed label. */
  lemma DestinationShift(u: Text, v: Text, b: nat, shift: int, right: nat)
    requires Behind(u, v, b, shift) && b <= right < |u|
    ensures right + shift >= 0 && (right + 1 < |u| ==> v[right + 1 + shift] == u[right + 1])
    ensures var end := Closing(u, right + 2, 0, OPEN_PARENTHESIS, CLOSE_PARENTHESIS);
            && Later(end, Closing(v, right + shift + 2, 0, OPEN_PARENTHESIS, CLOSE_PARENTHESIS), shift)
            && (end.Some? ==> v[right + shift + 2..end.value + shift] == u[right + 2..end.value])
  {
    hide Closing;
    UnitShift(u, v, b, shift, right + 1);
    ClosingShift(u, v, b, shift, right + 2, 0, OPEN_PARENTHESIS, CLOSE_PARENTHESIS);
    var end := Closing(u, right + 2, 0, OPEN_PARENTHESIS, CLOSE_PARENTHESIS);
    if end.Some? { SliceShift(u, v, b, shift, right + 2, end.value); }
  }

  /** `LinkAt` once the label is closed at `right`. */
  function Destination(units: Text, decode: Decoder, i: nat, left: nat, right: nat): Move
    requires left < right < |units|
  {
    if right + 1 >= |units| || units[right + 1] != OPEN_PARENTHESIS then Move(i + 1, None)
    else
      var end := Closing(units, right + 2, 0, OPEN_PARENTHESIS, CLOSE_PARENTHESIS);
      if end.None? then Move(i + 1, None)
      else
        var decoded := decode(units[left + 1..right], units[right + 2..end.value]);
        if left != i || decoded.None? then Move(end.value + 1, None)
        else Move(end.value + 1, Some(Link(Range(i, end.value + 1 - i), decoded.value)))
  }

  lemma LinkIs(units: Text, decode: Decoder, i: nat, left: nat, right: Option<nat>)
    requires i < |units| && left == (if ImageAt(units, i) then i + 1 else i)
    requires right == Closing(units, left + 1, 0, OPEN_BRACKET, CLOSE_BRACKET)
    ensures (units[i] != OPEN_BRACKET && left == i) || right.None? ==> LinkAt(units, decode, i) == Move(i + 1, None)
    ensures (units[i] == OPEN_BRACKET || left != i) && right.Some? ==>
              LinkAt(units, decode, i) == Destination(units, decode, i, left, right.value)
  {
    hide Closing;
  }

  lemma DestinationMoves(u: Text, v: Text, decode: Decoder, b: nat, shift: int, i: nat, left: nat, right: nat)
    requires Behind(u, v, b, shift) && b <= i <= left < right < |u|
    ensures i + shift >= 0 && |v| == |u| + shift
    ensures Further(Destination(u, decode, i, left, right),
                    Destination(v, decode, i + shift, left + shift, right + shift), shift)
  {
    hide Closing, Behind;
    UnitShift(u, v, b, shift, i);
    UnitShift(u, v, b, shift, right);
    DestinationShift(u, v, b, shift, right);
    SliceShift(u, v, b, shift, left + 1, right);
  }

  lemma LinkShift(u: Text, v: Text, decode: Decoder, b: nat, shift: int, i: nat)
    requires Behind(u, v, b, shift) && b <= i < |u|
    ensures i + shift >= 0 && |v| == |u| + shift
    ensures Further(LinkAt(u, decode, i), LinkAt(v, decode, i + shift), shift)
  {
    hide LinkAt, Closing, Behind, ImageAt, Destination;
    UnitShift(u, v, b, shift, i);
    var left := if ImageAt(u, i) then i + 1 else i;
    ClosingShift(u, v, b, shift, left + 1, 0, OPEN_BRACKET, CLOSE_BRACKET);
    var right := Closing(u, left + 1, 0, OPEN_BRACKET, CLOSE_BRACKET);
    var right' := Closing(v, left + 1 + shift, 0, OPEN_BRACKET, CLOSE_BRACKET);
    LinkIs(u, decode, i, left, right);
    LinkIs(v, decode, i + shift, left + shift, right');
    if (u[i] == OPEN_BRACKET || left != i) && right.Some? {
      hide Further;
      DestinationMoves(u, v, decode, b, shift, i, left, right.value);
    }
  }

  /** Code ranges that from `b` on end as the others do `shift` units further on. */
  ghost predicate CodeBehind(cu: seq<Range>, cv: seq<Range>, b: nat, shift: int) {
    forall x :: b <= x ==> CodeEnd(cv, x + shift)
                           == if CodeEnd(cu, x).Some? then Some(CodeEnd(cu, x).value + shift) else None
  }

  lemma TickMoveShift(u: Text, v: Text, b: nat, shift: int, i: nat)
    requires Behind(u, v, b, shift) && b <= i < |u|
    ensures i + shift >= 0 && Ticks(v, i + shift) == Ticks(u, i)
    ensures var n := Ticks(u, i);
            TicksClose(v, i + shift + n, n).GetOr(i + shift + n) == TicksClose(u, i + n, n).GetOr(i + n) + shift
  {
    hide Ticks, TicksClose, Behind;
    UnitShift(u, v, b, shift, i);
    TicksShift(u, v, b, shift, i);
    TicksCloseShift(u, v, b, shift, i + Ticks(u, i), Ticks(u, i));
  }

  lemma CommentShift(u: Text, v: Text, b: nat, shift: int, i: nat)
    requires Behind(u, v, b, shift) && b <= i < |u|
    ensures i + shift >= 0 && StandsAt(v, i + shift, COMMENT_START) == StandsAt(u, i, COMMENT_START)
    ensures CommentEnd(v, i + shift) == CommentEnd(u, i) + shift
  {
    hide FindFrom, StandsAt, Behind;
    UnitShift(u, v, b, shift, i);
    StandsShift(u, v, b, shift, i, COMMENT_START);
    FindShift(u, v, b, shift, i + 4, COMMENT_END);
  }

  lemma MoveShift(u: Text, v: Text, cu: seq<Range>, cv: seq<Range>, decode: Decoder, b: nat, shift: int, i: nat)
    requires Behind(u, v, b, shift) && b <= i < |u| && CodeBehind(cu, cv, b, shift)
    ensures i + shift >= 0 && |v| == |u| + shift
    ensures Further(MoveAt(u, cu, decode, i), MoveAt(v, cv, decode, i + shift), shift)
  {
    UnitShift(u, v, b, shift, i);
    hide MoveAt, CodeEnd, LinkAt, TicksClose, Ticks, StandsAt, CommentEnd, Behind;
    CodeEndIs(u, cu, decode, i);
    CodeEndIs(v, cv, decode, i + shift);
    if CodeEnd(cu, i).None? {
      if u[i] == BACKTICK {
        TickMoveShift(u, v, b, shift, i);
      } else if u[i] != BACKSLASH {
        CommentShift(u, v, b, shift, i);
        if !StandsAt(u, i, COMMENT_START) {
          LinkShift(u, v, decode, b, shift, i);
          hide Further;
        }
      }
      MoveIs(u, cu, decode, i);
      MoveIs(v, cv, decode, i + shift);
    }
  }

  function MovedLinks(links: seq<Link>, shift: int): (r: seq<Link>)
    ensures |r| == |links| && forall k :: 0 <= k < |r| ==> r[k] == MovedLink(links[k], shift)
  {
    seq(|links|, k requires 0 <= k < |links| => MovedLink(links[k], shift))
  }

  /** The scan of a common end is the same in both texts. */
  lemma {:induction false} SuffixScan(u: Text, v: Text, cu: seq<Range>, cv: seq<Range>, decode: Decoder, b: nat,
      shift: int, i: nat)
    requires Behind(u, v, b, shift) && b <= i && CodeBehind(cu, cv, b, shift)
    ensures i + shift >= 0
    ensures LinksFrom(v, cv, decode, i + shift) == MovedLinks(LinksFrom(u, cu, decode, i), shift)
    decreases |u| - i
  {
    hide MoveAt, CodeEnd;
    if i < |u| {
      MoveShift(u, v, cu, cv, decode, b, shift, i);
      SuffixScan(u, v, cu, cv, decode, b, shift, MoveAt(u, cu, decode, i).next);
    }
  }

  /** The links an edit keeps: the first `j`, and those from `k` on moved along. */
  function KeptLinks(links: seq<Link>, j: nat, k: nat, shift: int): seq<Link>
    requires j <= k <= |links|
  {
    links[..j] + MovedLinks(links[k..], shift)
  }

  /** The scan of the new text stands where the last kept link before the edit ends and where the first one behind it
      starts, and finds nothing in between. */
  ghost predicate Settles(v: Text, decode: Decoder, a: nat, b': nat) {
    && Visits(v, CodeRanges(v), decode, 0, a) && Visits(v, CodeRanges(v), decode, 0, b')
    && forall l :: l in Links(v, decode) ==> l.range.location < a || b' <= l.range.location
  }

  /** The code ranges of both texts agree before and behind the touched part. */
  ghost predicate SameCode(u: Text, v: Text, a: nat, b: nat, shift: int) {
    && (forall x :: 0 <= x < a ==> CodeEnd(CodeRanges(u), x) == CodeEnd(CodeRanges(v), x))
    && CodeBehind(CodeRanges(u), CodeRanges(v), b, shift)
  }

  /** `a` is where the first `j` links end, and `b` where those from `k` on start. */
  ghost predicate Around(u: Text, links: seq<Link>, j: nat, k: nat, a: nat, b: nat) {
    && j <= k <= |links| && a <= b <= |u|
    && a == (if j == 0 then 0 else links[j - 1].range.Max())
    && b == (if k == |links| then |u| else links[k].range.location)
  }

  lemma OldScan(u: Text, decode: Decoder, j: nat, k: nat, a: nat, b: nat)
    requires Around(u, Links(u, decode), j, k, a, b)
    ensures Visits(u, CodeRanges(u), decode, 0, a) && Between(u, CodeRanges(u), decode, 0, a) == Links(u, decode)[..j]
    ensures LinksFrom(u, CodeRanges(u), decode, b) == Links(u, decode)[k..]
    ensures a > 0 ==> u[a - 1] == CLOSE_PARENTHESIS
  {
    hide CodeRanges, Visits, Between, LinksFrom;
    var code, links := CodeRanges(u), Links(u, decode);
    LinksAreSorted(u, code, decode, 0);
    var ranges := LinkRanges(links);
    if j > 0 {
      LinkIsVisited(u, code, decode, 0, j - 1);
      LinkCloses(u, code, decode, 0, j - 1);
      assert ranges[j - 1] == links[j - 1].range;
      if j < |links| { assert ranges[j] == links[j].range; }
    } else {
      StandsHere(u, code, decode, 0);
    }
    ScanCuts(u, code, decode, a, j);
    if k < |links| {
      LinkIsVisited(u, code, decode, 0, k);
      assert ranges[k] == links[k].range;
      if k > 0 { assert ranges[k - 1] == links[k - 1].range; }
    } else {
      EndIsVisited(u, code, decode, 0);
      if k > 0 { LinkIsVisited(u, code, decode, 0, k - 1); }
    }
    ScanCuts(u, code, decode, b, k);
  }

  lemma {:induction false} LinkCloses(units: Text, code: seq<Range>, decode: Decoder, i: nat, n: nat)
    requires n < |LinksFrom(units, code, decode, i)|
    ensures var r := LinksFrom(units, code, decode, i)[n].range;
            0 < r.Max() <= |units| && units[r.Max() - 1] == CLOSE_PARENTHESIS
    decreases |units| - i
  {
    var m := MoveAt(units, code, decode, i);
    assert m.link.Some? ==> m.next <= |units| && units[m.next - 1] == CLOSE_PARENTHESIS by {
      CodeEndIs(units, code, decode, i);
      if CodeEnd(code, i).None? { MoveIs(units, code, decode, i); }
    }
    hide MoveAt;
    if m.link.Some? && n == 0 {
    } else {
      LinkCloses(units, code, decode, m.next, if m.link.Some? then n - 1 else n);
    }
  }

  lemma SettledFront(v: Text, decode: Decoder, a: nat, b': nat)
    requires Settles(v, decode, a, b') && a <= |v|
    ensures var front, links := Between(v, CodeRanges(v), decode, 0, a), Links(v, decode);
            && |front| <= |links| && links[..|front|] == front
            && (forall m :: 0 <= m < |front| ==> links[m].range.location < a)
            && forall m :: |front| <= m < |links| ==> b' <= links[m].range.location
  {
    hide CodeRanges, Visits, Between, LinksFrom;
    var cv, links := CodeRanges(v), Links(v, decode);
    ScanSplits(v, cv, decode, 0, a);
    LinksAreSorted(v, cv, decode, a);
    var front, back := Between(v, cv, decode, 0, a), LinksFrom(v, cv, decode, a);
    forall m | |front| <= m < |links|
      ensures b' <= links[m].range.location
    {
      assert links[m] == back[m - |front|] && LinkRanges(back)[m - |front|].location >= a && links[m] in links;
    }
  }

  /** The new scan finds the kept links if it settles. */
  lemma SettledScan(u: Text, v: Text, decode: Decoder, j: nat, k: nat, a: nat, b: nat, shift: int)
    requires Around(u, Links(u, decode), j, k, a, b) && Alike(u, v, a) && Behind(u, v, b, shift) && a <= b + shift
    requires SameCode(u, v, a, b, shift) && Settles(v, decode, a, b + shift)
    ensures Links(v, decode) == KeptLinks(Links(u, decode), j, k, shift)
  {
    hide CodeRanges, Visits, Between, LinksFrom, Alike, Behind;
    var cu, cv := CodeRanges(u), CodeRanges(v);
    Lengths(u, v, a);
    UnitShift(u, v, b, shift, b);
    OldScan(u, decode, j, k, a, b);
    CodesAreSorted(u);
    CodesAreSorted(v);
    PrefixScan(u, v, cu, cv, decode, a, 0);
    SettledFront(v, decode, a, b + shift);
    ScanCuts(v, cv, decode, b + shift, j);
    SuffixScan(u, v, cu, cv, decode, b, shift, b);
    hide Links, Settles, SameCode, Around;
    assert Links(v, decode) == Links(v, decode)[..j] + Links(v, decode)[j..];
  }

  lemma LinksInOrder(u: Text, decode: Decoder, m: nat, n: nat)
    requires m <= n < |Links(u, decode)|
    ensures m < n ==> Links(u, decode)[m].range.Max() <= Links(u, decode)[n].range.location
    ensures Links(u, decode)[m].range.location < Links(u, decode)[m].range.Max()
  {
    hide LinksFrom, CodeRanges;
    LinksAreSorted(u, CodeRanges(u), decode, 0);
    var ranges := LinkRanges(Links(u, decode));
    assert ranges[m] == Links(u, decode)[m].range && ranges[n] == Links(u, decode)[n].range;
  }

  lemma KeptOutside(u: Text, decode: Decoder, j: nat, k: nat, a: nat, b: nat, shift: int, l: Link)
    requires Around(u, Links(u, decode), j, k, a, b) && l in KeptLinks(Links(u, decode), j, k, shift)
    ensures l.range.location < a || b + shift <= l.range.location
  {
    hide Links;
    var links := Links(u, decode);
    var kept := KeptLinks(links, j, k, shift);
    var m :| 0 <= m < |kept| && kept[m] == l;
    if m < j {
      assert l == links[m];
      LinksInOrder(u, decode, m, j - 1);
      LinksInOrder(u, decode, j - 1, j - 1);
    } else {
      assert l == MovedLink(links[k + m - j], shift);
      LinksInOrder(u, decode, k, k + m - j);
    }
  }

  lemma KeptVisits(v: Text, decode: Decoder, n: nat)
    requires n < |Links(v, decode)|
    ensures var r := Links(v, decode)[n].range;
            && 0 <= r.location < r.Max()
            && Visits(v, CodeRanges(v), decode, 0, r.location) && Visits(v, CodeRanges(v), decode, 0, r.Max())
  {
    hide CodeRanges, Visits, LinksFrom;
    LinkIsVisited(v, CodeRanges(v), decode, 0, n);
  }

  /** And only if it does, wherever the code is. */
  lemma KeptScan(u: Text, v: Text, decode: Decoder, j: nat, k: nat, a: nat, b: nat, shift: int)
    requires Around(u, Links(u, decode), j, k, a, b) && Behind(u, v, b, shift) && a <= b + shift
    requires Links(v, decode) == KeptLinks(Links(u, decode), j, k, shift)
    ensures Settles(v, decode, a, b + shift)
  {
    var links := Links(u, decode);
    UnitShift(u, v, b, shift, b);
    hide CodeRanges, Visits, Links, Behind;
    StandsHere(v, CodeRanges(v), decode, 0);
    EndIsVisited(v, CodeRanges(v), decode, 0);
    if j > 0 {
      assert Links(v, decode)[j - 1] == links[j - 1];
      KeptVisits(v, decode, j - 1);
    }
    if k < |links| {
      assert Links(v, decode)[j] == MovedLink(links[k], shift);
      KeptVisits(v, decode, j);
    }
    forall l | l in Links(v, decode)
      ensures l.range.location < a || b + shift <= l.range.location
    {
      KeptOutside(u, decode, j, k, a, b, shift, l);
    }
  }

  lemma {:induction false} SameProjection(source: Text, a: seq<Reference>, b: seq<Reference>, from: int)
    requires |a| == |b| && forall k :: 0 <= k < |a| ==> a[k].source == b[k].source && a[k].name == b[k].name
    ensures Project(source, a, from) == Project(source, b, from)
    decreases |a|
  {
    if a != [] { SameProjection(source, a[1..], b[1..], a[0].source.Max()); }
  }

  lemma {:induction false} SameDisplays(c: Composer, d: Composer, k: nat)
    requires c.Valid() && d.Valid() && c.source == d.source && |c.references| == |d.references| && k <= |c.references|
    requires forall i :: 0 <= i < |c.references| ==>
               c.references[i].source == d.references[i].source && c.references[i].name == d.references[i].name
    ensures forall i :: 0 <= i < k ==> c.references[i].display == d.references[i].display
  {
    if k > 0 {
      SameDisplays(c, d, k - 1);
      GapEnds(c, k - 1);
      GapEnds(d, k - 1);
      assert c.Labelled(k - 1) && d.Labelled(k - 1);
      assert |c.references[k - 1].name| == c.references[k - 1].display.length;
    }
  }

  /** A valid composer is determined by its source and by what its references are and where they stand there. */
  lemma SourceDetermines(c: Composer, d: Composer)
    requires c.Valid() && d.Valid() && c.source == d.source && |c.references| == |d.references|
    requires forall i :: 0 <= i < |c.references| ==>
               c.references[i].kind == d.references[i].kind && c.references[i].source == d.references[i].source
               && c.references[i].name == d.references[i].name
    ensures c == d
  {
    TextIsProjection(c);
    TextIsProjection(d);
    SameProjection(c.source, c.references, d.references, 0);
    SameDisplays(c, d, |c.references|);
    assert c.references == d.references;
  }

  /** What `init` makes of a source. */
  ghost predicate Scanned(c: Composer, decode: Decoder) {
    && c.Valid()
    && var links := Links(c.source, decode);
       |c.references| == |links| && forall k :: 0 <= k < |links| ==>
         c.references[k].source == links[k].range && c.references[k].kind == links[k].decoded.kind
         && c.references[k].name == links[k].decoded.name
  }

  lemma CutSides(u: Text, s: nat, t: nat, w: Text, a: nat, b: nat)
    requires a <= s <= t <= b <= |u|
    ensures Alike(u, Cut(u, s, t, w), a) && Behind(u, Cut(u, s, t, w), b, |w| - (t - s))
    ensures a <= b + |w| - (t - s)
  {
    CutLeft(u, s, t, w, 0, a);
  }

  /** A valid composer with the first `j` references of `c`, and those from `k` on moved along in the source. */
  ghost predicate Spares(c: Composer, q: Composer, j: nat, k: nat, shift: int) {
    q.Valid() && j <= k <= |c.references|
    && exists byDisplay: int :: q.references == Survivors(c.references, j, k, shift, byDisplay)
  }

  /** The new composer is the spliced one exactly if its scan finds the kept links. */
  lemma KeptIsSpliced(c: Composer, decode: Decoder, n: Composer, q: Composer, j: nat, k: nat, shift: int)
    requires Scanned(c, decode) && Scanned(n, decode) && q.source == n.source && Spares(c, q, j, k, shift)
    ensures n == q <==> Links(n.source, decode) == KeptLinks(Links(c.source, decode), j, k, shift)
  {
    hide Links, Composer.Valid;
    var byDisplay: int :| q.references == Survivors(c.references, j, k, shift, byDisplay);
    var old', new' := Links(c.source, decode), Links(n.source, decode);
    var kept := KeptLinks(old', j, k, shift);
    assert |kept| == |q.references|;
    forall m | 0 <= m < |kept|
      ensures kept[m].range == q.references[m].source && kept[m].decoded.kind == q.references[m].kind
      ensures kept[m].decoded.name == q.references[m].name
    {
      assert kept[m] == if m < j then old'[m] else MovedLink(old'[k..][m - j], shift);
    }
    if n == q { assert new' == kept; }
    if new' == kept { SourceDetermines(n, q); }
  }

  lemma ScannedAround(c: Composer, decode: Decoder, j: nat, k: nat, a: nat, b: nat)
    requires Scanned(c, decode) && j <= k <= |c.references| && a == c.SourceFrom(j) && b == c.SourceTo(k)
    ensures Around(c.source, Links(c.source, decode), j, k, a, b)
  {
    hide Links;
    GapEnds(c, j);
    GapEnds(c, k);
    InOrder(c, j, k);
  }

  lemma SpliceSides(c: Composer, j: nat, k: nat, d: int, e: int, s: nat, t: nat, w: Text, a: nat, b: nat)
    requires c.Valid() && j <= k && d <= e && AtGap(c, j, d, s) && AtGap(c, k, e, t) && s <= t <= |c.source|
    requires a == c.SourceFrom(j) && b == c.SourceTo(k)
    ensures var v, shift, q := Cut(c.source, s, t, w), |w| - (t - s), Spliced(c, j, k, d, e, w);
            && Alike(c.source, v, a) && Behind(c.source, v, b, shift) && a <= b + shift
            && q.source == v && Spares(c, q, j, k, shift)
  {
    GapEnds(c, j);
    GapEnds(c, k);
    CutSides(c.source, s, t, w, a, b);
    SplicedIsValid(c, j, k, d, e, w);
    hide Alike, Behind, Survivors, Cut, Composer.Valid;
  }

  lemma ScanDecides(u: Text, v: Text, decode: Decoder, j: nat, k: nat, a: nat, b: nat, shift: int)
    requires Around(u, Links(u, decode), j, k, a, b) && Alike(u, v, a) && Behind(u, v, b, shift) && a <= b + shift
    requires SameCode(u, v, a, b, shift)
    ensures Settles(v, decode, a, b + shift) <==> Links(v, decode) == KeptLinks(Links(u, decode), j, k, shift)
  {
    hide Links, SameCode, Settles, Alike, Behind;
    if Settles(v, decode, a, b + shift) { SettledScan(u, v, decode, j, k, a, b, shift); }
    if Links(v, decode) == KeptLinks(Links(u, decode), j, k, shift) { KeptScan(u, v, decode, j, k, a, b, shift); }
  }

  /** The composer that is made anew from an edited source, and the one the edit is meant to lead to. */
  ghost predicate Rescans(c: Composer, decode: Decoder, p: Plan, n: Composer)
    requires c.Valid() && p.j <= p.k <= |c.references| && p.d <= p.e
    requires AtGap(c, p.j, p.d, p.s) && AtGap(c, p.k, p.e, p.t)
  {
    n == Spliced(c, p.j, p.k, p.d, p.e, p.splice.text)
  }

  /** The new scan finds the links a plan keeps. */
  ghost predicate FindsKept(c: Composer, decode: Decoder, p: Plan, n: Composer) {
    var links := Links(c.source, decode);
    p.j <= p.k <= |links|
    && Links(n.source, decode) == KeptLinks(links, p.j, p.k, |p.splice.text| - (p.t - p.s))
  }

  lemma PlanScans(c: Composer, decode: Decoder, p: Plan, n: Composer, a: nat, b: nat)
    requires Scanned(c, decode)
    requires p.j <= p.k <= |c.references| && p.d <= p.e && AtGap(c, p.j, p.d, p.s) && AtGap(c, p.k, p.e, p.t)
    requires 0 <= p.s <= p.t <= |c.source| && n.source == Cut(c.source, p.s, p.t, p.splice.text)
    requires a == c.SourceFrom(p.j) && b == c.SourceTo(p.k)
    requires SameCode(c.source, n.source, a, b, |p.splice.text| - (p.t - p.s))
    ensures var b' := b + |p.splice.text| - (p.t - p.s);
            b' >= 0 && (FindsKept(c, decode, p, n) <==> Settles(n.source, decode, a, b'))
  {
    hide Links, SameCode, Settles, Alike, Behind, KeptLinks, Spares, Cut, Spliced, AtGap;
    ScannedAround(c, decode, p.j, p.k, a, b);
    SpliceSides(c, p.j, p.k, p.d, p.e, p.s, p.t, p.splice.text, a, b);
    ScanDecides(c.source, n.source, decode, p.j, p.k, a, b, |p.splice.text| - (p.t - p.s));
  }

  lemma SameCount(c: Composer, decode: Decoder)
    requires Scanned(c, decode)
    ensures c.Valid() && |Links(c.source, decode)| == |c.references|
  {
  }

  lemma SparesOrder(c: Composer, q: Composer, j: nat, k: nat, shift: int)
    requires Spares(c, q, j, k, shift)
    ensures j <= k <= |c.references|
  {
  }

  lemma PlanSplits(c: Composer, decode: Decoder, p: Plan, n: Composer, q: Composer)
    requires Scanned(c, decode) && Scanned(n, decode) && q.source == n.source
    requires Spares(c, q, p.j, p.k, |p.splice.text| - (p.t - p.s))
    ensures n == q <==> FindsKept(c, decode, p, n)
  {
    hide Links, KeptLinks, Spares, Scanned, Composer.Valid;
    SameCount(c, decode);
    SparesOrder(c, q, p.j, p.k, |p.splice.text| - (p.t - p.s));
    KeptIsSpliced(c, decode, n, q, p.j, p.k, |p.splice.text| - (p.t - p.s));
  }

  lemma PlanRescans(c: Composer, decode: Decoder, p: Plan, n: Composer, a: nat, b: nat)
    requires Scanned(c, decode) && Scanned(n, decode)
    requires p.j <= p.k <= |c.references| && p.d <= p.e && AtGap(c, p.j, p.d, p.s) && AtGap(c, p.k, p.e, p.t)
    requires 0 <= p.s <= p.t <= |c.source| && n.source == Cut(c.source, p.s, p.t, p.splice.text)
    requires a == c.SourceFrom(p.j) && b == c.SourceTo(p.k)
    requires SameCode(c.source, n.source, a, b, |p.splice.text| - (p.t - p.s))
    ensures var b' := b + |p.splice.text| - (p.t - p.s);
            b' >= 0 && (Rescans(c, decode, p, n) <==> Settles(n.source, decode, a, b'))
  {
    hide Scanned, SameCode, Settles, Cut, Spliced, FindsKept, Composer.Valid;
    SameCount(c, decode);
    var q := Spliced(c, p.j, p.k, p.d, p.e, p.splice.text);
    assert Rescans(c, decode, p, n) <==> n == q;
    hide *;
    SpliceSides(c, p.j, p.k, p.d, p.e, p.s, p.t, p.splice.text, a, b);
    PlanScans(c, decode, p, n, a, b);
    PlanSplits(c, decode, p, n, q);
  }

  /** When the composer that is made anew from an edited source is the one the edit is meant to lead to: as long as the
      code ranges agree before and behind the touched references, exactly if the new scan settles, that is, stands where
      the last kept reference before them ends and where the first one behind them starts, and finds nothing between. */
  lemma EditRescans(c: Composer, decode: Decoder, value: Text, selection: Range, inSource: bool, p: Plan, n: Composer,
      a: nat, b: nat)
    requires Scanned(c, decode) && p == PlanOf(c, value, selection, inSource)
    requires Scanned(n, decode) && n.source == Editing(c, value, selection, inSource).text
    requires p.j <= |c.references| && a == c.SourceFrom(p.j) && p.k <= |c.references| && b == c.SourceTo(p.k)
    requires SameCode(c.source, n.source, a, b, |p.splice.text| - (p.t - p.s))
    ensures p.j <= p.k && p.d <= p.e && AtGap(c, p.j, p.d, p.s) && AtGap(c, p.k, p.e, p.t)
    ensures var b' := b + |p.splice.text| - (p.t - p.s);
            b' >= 0 && (Rescans(c, decode, p, n) <==> Settles(n.source, decode, a, b'))
  {
    PlanInGaps(c, value, selection, inSource);
    EditFollowsPlan(c, value, selection, inSource);
    hide *;
    PlanRescans(c, decode, p, n, a, b);
  }

  /** Text without code, before and after, agrees everywhere. */
  lemma NoCodeAgrees(u: Text, v: Text, a: nat, b: nat, shift: int)
    requires CodeRanges(u) == [] && CodeRanges(v) == []
    ensures SameCode(u, v, a, b, shift)
  {
    hide CodeRanges;
    assert forall x :: CodeEnd([], x) == None;
  }

  lemma ImageStays(v: Text, decode: Decoder, i: nat)
    requires i + 1 < |v| && ImageAt(v, i)
    ensures LinkAt(v, decode, i).link.None?
    ensures LinkAt(v, decode, i).next == i + 1 ==> LinkAt(v, decode, i + 1).link.None?
  {
    hide Closing;
  }

  lemma NoMoveLink(v: Text, code: seq<Range>, decode: Decoder, i: nat)
    requires i < |v| && v[i] == OPEN_BRACKET && LinkAt(v, decode, i).link.None?
    ensures MoveAt(v, code, decode, i).link.None?
  {
    CodeEndIs(v, code, decode, i);
    if CodeEnd(code, i).None? { MoveIs(v, code, decode, i); }
  }

  lemma MarkMoves(v: Text, code: seq<Range>, decode: Decoder, i: nat)
    requires i + 1 < |v| && CodeEnd(code, i).None?
    requires (v[i] == EXCLAMATION || v[i] == BACKSLASH) && v[i + 1] == OPEN_BRACKET
    ensures MoveAt(v, code, decode, i).link.None?
    ensures MoveAt(v, code, decode, i).next == i + 1 ==> MoveAt(v, code, decode, i + 1).link.None?
  {
    MoveIs(v, code, decode, i);
    if v[i] == EXCLAMATION { ImageStays(v, decode, i); }
    hide MoveAt, LinkAt;
    if MoveAt(v, code, decode, i).next == i + 1 { NoMoveLink(v, code, decode, i + 1); }
  }

  lemma MarkSkips(v: Text, code: seq<Range>, decode: Decoder, i: nat)
    requires i + 1 < |v| && CodeEnd(code, i).None?
    requires (v[i] == EXCLAMATION || v[i] == BACKSLASH) && v[i + 1] == OPEN_BRACKET
    ensures forall l :: l in LinksFrom(v, code, decode, i) ==> l.range.location > i + 1
  {
    MarkMoves(v, code, decode, i);
    hide MoveAt, LinksFrom;
    LinklessMove(v, code, decode, i);
    LinklessMove(v, code, decode, i + 1);
    var next := MoveAt(v, code, decode, i).next;
    LinksBehind(v, code, decode, if next == i + 1 then MoveAt(v, code, decode, i + 1).next else next);
  }

  lemma LinklessMove(v: Text, code: seq<Range>, decode: Decoder, i: nat)
    requires i < |v|
    ensures var m := MoveAt(v, code, decode, i);
            m.link.None? ==> LinksFrom(v, code, decode, i) == LinksFrom(v, code, decode, m.next)
  {
    hide MoveAt;
  }

  lemma LinksBehind(v: Text, code: seq<Range>, decode: Decoder, x: nat)
    ensures forall l :: l in LinksFrom(v, code, decode, x) ==> l.range.location >= x
  {
    hide LinksFrom;
    LinksAreSorted(v, code, decode, x);
    var links := LinksFrom(v, code, decode, x);
    forall l | l in links
      ensures l.range.location >= x
    {
      var k :| 0 <= k < |links| && links[k] == l;
      assert LinkRanges(links)[k].location >= x;
    }
  }

  /** Where it fails: with an exclamation mark or a backslash in front of its bracket, typed where the scanner stands, a
      link is none any more. */
  lemma MarkHides(v: Text, decode: Decoder, i: nat)
    requires i + 1 < |v| && Visits(v, CodeRanges(v), decode, 0, i) && CodeEnd(CodeRanges(v), i).None?
    requires (v[i] == EXCLAMATION || v[i] == BACKSLASH) && v[i + 1] == OPEN_BRACKET
    ensures forall l :: l in Links(v, decode) ==> l.range.location != i + 1
  {
    hide CodeRanges, Visits, LinksFrom, Between;
    ScanSplits(v, CodeRanges(v), decode, 0, i);
    MarkSkips(v, CodeRanges(v), decode, i);
  }
}
