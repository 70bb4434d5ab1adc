/** Splitting a message into prose and fenced code: nothing is lost, and both readers of fences agree. */
module ChatBlocks {
  import opened Wrappers
  import opened ReferenceText
  import opened MarkdownLines
  import opened ReferenceScan

  datatype Block = Block(id: nat, text: Text, language: Option<Text>, isCode: bool)

  /** A stretch of the text: what stands between fences, in them, or a fence line itself. */
  datatype Role = Prose | Mark | Code(language: Text)
  datatype Piece = Piece(role: Role, from: nat, to: nat)

  /** The fence a block is in, and what its first line says behind the marker. */
  datatype Opened = Opened(fence: Fence, language: Text)

  predicate White(u: Unit) {
    Blank(u) || Newline(u)
  }

  function Trim(t: Text): Text {
    if t != [] && White(t[0]) then Trim(t[1..])
    else if t != [] && White(t[|t| - 1]) then Trim(t[..|t| - 1])
    else t
  }

  function TrimBlanks(t: Text): Text {
    if t != [] && Blank(t[0]) then TrimBlanks(t[1..])
    else if t != [] && Blank(t[|t| - 1]) then TrimBlanks(t[..|t| - 1])
    else t
  }

  function MarkerCount(line: Text): (n: nat)
    ensures n <= |Content(line)|
  {
    if Content(line) != [] && FenceUnit(Content(line)[0]) then Run(Content(line), Content(line)[0]) else 0
  }

  predicate Closing(line: Text, fence: Fence) {
    && fence.count > 0 && Run(line, SPACE) <= 3 && Content(line) != [] && Content(line)[0] == fence.marker
    && MarkerCount(line) >= fence.count && TrimBlanks(Content(line)[MarkerCount(line)..]) == []
  }

  predicate Opening(line: Text) {
    Run(line, SPACE) <= 3 && MarkerCount(line) >= 3
  }

  function LineText(t: Text, index: nat): Text
    requires index < |t|
  {
    TrimNewlines(t[index..NewlineMax(t, index)])
  }

  /** The pieces from the line at `index` on, when the one being read began at `start`. */
  function PiecesFrom(t: Text, index: nat, open: Option<Opened>, start: nat): seq<Piece>
    requires start <= index <= |t|
    decreases |t| - index
  {
    var role := if open.Some? then Code(open.value.language) else Prose;
    if index == |t| then [Piece(role, start, index)]
    else
      var max := NewlineMax(t, index);
      var line := LineText(t, index);
      if open.Some? && Closing(line, open.value.fence) then
        [Piece(role, start, index), Piece(Mark, index, max)] + PiecesFrom(t, max, None, max)
      else if open.None? && Opening(line) then
        [Piece(role, start, index), Piece(Mark, index, max)] + PiecesFrom(t, max, Some(OpenedBy(line)), max)
      else PiecesFrom(t, max, open, start)
  }

  function OpenedBy(line: Text): Opened
    requires Opening(line)
  {
    Opened(Fence(Content(line)[0], MarkerCount(line)), TrimBlanks(Content(line)[MarkerCount(line)..]))
  }

  function Pieces(t: Text): seq<Piece> {
    PiecesFrom(t, 0, None, 0)
  }

  function TextOf(t: Text, p: Piece): Text
    requires p.from <= p.to <= |t|
  {
    t[p.from..p.to]
  }

  /** The block a piece is shown as: code as it is, prose trimmed, nothing for a fence line or for no content. */
  function BlockOf(t: Text, p: Piece, id: nat): Option<Block>
    requires p.from <= p.to <= |t|
  {
    match p.role
    case Mark => None
    case Prose => if Trim(TextOf(t, p)) == [] then None else Some(Block(id, Trim(TextOf(t, p)), None, false))
    case Code(language) => if TextOf(t, p) == [] then None else Some(Block(id, TextOf(t, p), Some(language), true))
  }

  ghost predicate Within(ps: seq<Piece>, length: nat) {
    forall p :: p in ps ==> p.from <= p.to <= length
  }

  function Shown(t: Text, ps: seq<Piece>, id: nat): seq<Block>
    requires Within(ps, |t|)
  {
    if ps == [] then []
    else
      var b := BlockOf(t, ps[0], id);
      if b.Some? then [b.value] + Shown(t, ps[1..], id + 1) else Shown(t, ps[1..], id)
  }

  lemma {:induction false} PiecesWithin(t: Text, index: nat, open: Option<Opened>, start: nat)
    requires start <= index <= |t|
    ensures Within(PiecesFrom(t, index, open, start), |t|)
    decreases |t| - index
  {
    hide Closing, LineText, MarkerCount;
    if index < |t| {
      var max := NewlineMax(t, index);
      PiecesWithin(t, max, None, max);
      PiecesWithin(t, max, open, start);
      if Opening(LineText(t, index)) { PiecesWithin(t, max, Some(OpenedBy(LineText(t, index))), max); }
    }
  }

  /** The pieces follow one another without a gap. */
  ghost predicate Tile(ps: seq<Piece>, from: nat, to: nat) {
    if ps == [] then from == to else ps[0].from == from && ps[0].from <= ps[0].to && Tile(ps[1..], ps[0].to, to)
  }

  lemma {:induction false} PiecesTile(t: Text, index: nat, open: Option<Opened>, start: nat)
    requires start <= index <= |t|
    ensures Tile(PiecesFrom(t, index, open, start), start, |t|)
    decreases |t| - index
  {
    hide Closing, LineText, MarkerCount;
    if index < |t| {
      var max := NewlineMax(t, index);
      PiecesTile(t, max, None, max);
      PiecesTile(t, max, open, start);
      if Opening(LineText(t, index)) { PiecesTile(t, max, Some(OpenedBy(LineText(t, index))), max); }
      TileTwo(start, index, max, |t|);
    }
  }

  lemma TileTwo(start: nat, index: nat, max: nat, to: nat)
    requires start <= index <= max
    ensures forall a: Role, b: Role, ps :: Tile(ps, max, to) ==>
              Tile([Piece(a, start, index), Piece(b, index, max)] + ps, start, to)
  {
    forall a: Role, b: Role, ps | Tile(ps, max, to)
      ensures Tile([Piece(a, start, index), Piece(b, index, max)] + ps, start, to)
    {
      var all := [Piece(a, start, index), Piece(b, index, max)] + ps;
      assert all[1..] == [Piece(b, index, max)] + ps && all[1..][1..] == ps;
    }
  }

  function Joined(t: Text, ps: seq<Piece>): Text
    requires Within(ps, |t|)
  {
    if ps == [] then [] else TextOf(t, ps[0]) + Joined(t, ps[1..])
  }

  lemma {:induction false} TilesJoin(t: Text, ps: seq<Piece>, from: nat)
    requires Tile(ps, from, |t|) && from <= |t| && Within(ps, |t|)
    ensures Joined(t, ps) == t[from..]
  {
    if ps != [] {
      assert ps[0] in ps;
      TilesJoin(t, ps[1..], ps[0].to);
    }
  }

  /** Lossless: prose, fence lines and code in order are the text again. */
  lemma PiecesRebuild(t: Text)
    ensures Within(Pieces(t), |t|) && Joined(t, Pieces(t)) == t
  {
    PiecesWithin(t, 0, None, 0);
    PiecesTile(t, 0, None, 0);
    TilesJoin(t, Pieces(t), 0);
  }

  lemma BlockId(t: Text, p: Piece, id: nat)
    requires p.from <= p.to <= |t|
    ensures BlockOf(t, p, id).Some? ==> BlockOf(t, p, id).value.id == id
  {
  }

  predicate Shows(t: Text, p: Piece)
    requires p.from <= p.to <= |t|
  {
    match p.role
    case Mark => false
    case Prose => Trim(TextOf(t, p)) != []
    case Code(_) => TextOf(t, p) != []
  }

  lemma ShowsBlock(t: Text, p: Piece, id: nat)
    requires p.from <= p.to <= |t|
    ensures BlockOf(t, p, id).Some? <==> Shows(t, p)
  {
  }

  /** The piece that block `j` shows. */
  function PieceOf(t: Text, ps: seq<Piece>, id: nat, j: nat): (k: nat)
    requires Within(ps, |t|) && j < |Shown(t, ps, id)|
    ensures k < |ps|
  {
    if BlockOf(t, ps[0], id).Some? then (if j == 0 then 0 else 1 + PieceOf(t, ps[1..], id + 1, j - 1))
    else 1 + PieceOf(t, ps[1..], id, j)
  }

  /** Blocks are numbered in order, and each is one piece: code an exact slice of the text, prose a trimmed one. */
  lemma {:induction false} BlocksAreSlices(t: Text, ps: seq<Piece>, id: nat, j: nat)
    requires Within(ps, |t|) && j < |Shown(t, ps, id)|
    ensures Shown(t, ps, id)[j].id == id + j
    ensures BlockOf(t, ps[PieceOf(t, ps, id, j)], id + j) == Some(Shown(t, ps, id)[j])
  {
    hide BlockOf;
    BlockId(t, ps[0], id);
    if BlockOf(t, ps[0], id).Some? {
      if j > 0 { BlocksAreSlices(t, ps[1..], id + 1, j - 1); }
    } else {
      BlocksAreSlices(t, ps[1..], id, j);
    }
  }

  /** Later blocks show later pieces. */
  lemma {:induction false} BlocksRise(t: Text, ps: seq<Piece>, id: nat, j: nat, k: nat)
    requires Within(ps, |t|) && j < k < |Shown(t, ps, id)|
    ensures PieceOf(t, ps, id, j) < PieceOf(t, ps, id, k)
  {
    hide BlockOf;
    if BlockOf(t, ps[0], id).Some? {
      if j > 0 { BlocksRise(t, ps[1..], id + 1, j - 1, k - 1); }
    } else {
      BlocksRise(t, ps[1..], id, j, k);
    }
  }

  /** And every piece with something to show is shown. */
  lemma {:induction false} PiecesShow(t: Text, ps: seq<Piece>, id: nat, k: nat)
    requires Within(ps, |t|) && k < |ps| && Shows(t, ps[k])
    ensures exists j :: 0 <= j < |Shown(t, ps, id)| && PieceOf(t, ps, id, j) == k
  {
    hide BlockOf, Shows;
    ShowsBlock(t, ps[0], id);
    if k == 0 {
      assert PieceOf(t, ps, id, 0) == 0;
    } else {
      var shown := BlockOf(t, ps[0], id).Some?;
      var next := if shown then id + 1 else id;
      PiecesShow(t, ps[1..], next, k - 1);
      var j :| 0 <= j < |Shown(t, ps[1..], next)| && PieceOf(t, ps[1..], next, j) == k - 1;
      assert PieceOf(t, ps, id, if shown then j + 1 else j) == k;
    }
  }

  /** A character stands in a fenced block or on its fence lines. */
  predicate InFence(ps: seq<Piece>, x: nat) {
    ps != [] && ((!ps[0].role.Prose? && ps[0].from <= x < ps[0].to) || InFence(ps[1..], x))
  }

  /** A character stands in one of the fenced ranges of the reference scanner. */
  predicate InFenced(code: seq<CodeRange>, x: nat) {
    code != [] && ((code[0].fenced && code[0].range.location <= x < code[0].range.Max()) || InFenced(code[1..], x))
  }

  lemma {:induction false} BlankIsTrimmed(t: Text)
    ensures TrimBlanks(t) == [] <==> AllBlank(t)
  {
    if t != [] {
      if Blank(t[0]) {
        BlankIsTrimmed(t[1..]);
        assert t == [t[0]] + t[1..];
      } else if Blank(t[|t| - 1]) {
        BlankIsTrimmed(t[..|t| - 1]);
        assert !AllBlank(t[..|t| - 1]) by { assert t[..|t| - 1][0] == t[0]; }
      }
    }
  }

  /** On text with line feeds only, both readers see the same line open and close the same fences. */
  lemma LinesAgree(t: Text, index: nat, fence: Fence)
    requires index < |t| && LineFeedsOnly(t) && fence.count >= 3 && FenceUnit(fence.marker)
    ensures LineText(t, index) == LineAt(t, index) && NewlineMax(t, index) == LineMax(t, index)
    ensures var line := LineAt(t, index);
            && (Opening(line) <==> MarkerLine(line) && MarkerSize(line) >= 3)
            && (Closing(line, fence) <==> MarkerLine(line) && MarkerSize(line) >= 3 && ClosesFence(line, fence))
            && (MarkerLine(line) ==> MarkerCount(line) == MarkerSize(line))
  {
    SameLines(t, index);
    hide TrimNewlines, NewlineMax, LineMax, TrimBlanks, AllBlank, LineFeedsOnly;
    var line := LineAt(t, index);
    if Content(line) != [] { BlankIsTrimmed(Content(line)[MarkerSize(line)..]); }
  }

  lemma {:induction false} FencedJoin(a: seq<CodeRange>, b: seq<CodeRange>, x: nat)
    ensures InFenced(a + b, x) <==> InFenced(a, x) || InFenced(b, x)
  {
    if a == [] {
      assert a + b == b;
    } else {
      FencedJoin(a[1..], b, x);
      assert (a + b)[1..] == a[1..] + b;
    }
  }

  lemma TwoInFence(p: Piece, q: Piece, ps: seq<Piece>, x: nat)
    ensures InFence([p, q] + ps, x)
       <==> (!p.role.Prose? && p.from <= x < p.to) || (!q.role.Prose? && q.from <= x < q.to) || InFence(ps, x)
  {
    var all := [p, q] + ps;
    assert all[1..] == [q] + ps && all[1..][1..] == ps;
  }

  /** What the reference scanner's fence and the splitter's fence have in common. */
  ghost predicate SameFence(open: Option<Opened>, code: Option<OpenFence>, start: nat, index: nat) {
    if code.None? then open.None?
    else
      && open.Some? && open.value.fence == code.value.fence && code.value.fence.count >= 3
      && FenceUnit(code.value.fence.marker) && code.value.start <= start <= index
  }

  /** The fenced part that the splitter has already cut off as the opening line. */
  predicate Behind(code: Option<OpenFence>, start: nat, x: nat) {
    code.Some? && code.value.start <= x < start
  }

  lemma {:induction false} FencesAgreeFrom(t: Text, index: nat, open: Option<Opened>, code: Option<OpenFence>,
      start: nat, x: nat)
    requires LineFeedsOnly(t) && start <= index <= |t| && SameFence(open, code, start, index)
    ensures InFenced(CodeFrom(t, index, code), x) <==>
              Behind(code, start, x) || InFence(PiecesFrom(t, index, open, start), x)
    decreases |t| - index
  {
    hide Closing, Opening, LineText, LineAt, MarkerLine, MarkerSize, MarkerCount, ClosesFence, IndentedCode,
        LineFeedsOnly,
         InFence, InFenced;
    if index == |t| {
      AtEnd(t, open, code, start, x);
    } else {
      var max, line := NewlineMax(t, index), LineText(t, index);
      LinesAgree(t, index, if code.Some? then code.value.fence else Fence(BACKTICK, 3));
      var (done, code') := CodeLine(t, index, code);
      FencedJoin(done, CodeFrom(t, max, code'), x);
      if open.Some? && Closing(line, open.value.fence) {
        FencesAgreeFrom(t, max, None, None, max, x);
        OneFenced(CodeRange(Range(code.value.start, max - code.value.start), true), x);
        TwoInFence(Piece(Code(open.value.language), start, index), Piece(Mark, index, max),
            PiecesFrom(t, max, None, max), x);
      } else if open.None? && Opening(line) {
        OpenersAgree(line);
        FencesAgreeFrom(t, max, Some(OpenedBy(line)), code', max, x);
        NoneFenced(x);
        TwoInFence(Piece(Prose, start, index), Piece(Mark, index, max),
                   PiecesFrom(t, max, Some(OpenedBy(line)), max), x);
      } else {
        FencesAgreeFrom(t, max, open, code, start, x);
        NoneFenced(x);
        OneFenced(CodeRange(Range(index, max - index), false), x);
      }
    }
  }

  lemma OpenersAgree(line: Text)
    requires Opening(line)
    ensures FenceUnit(Content(line)[0]) && OpenedBy(line).fence == Fence(Content(line)[0], MarkerSize(line))
            && MarkerSize(line) >= 3
  {
  }

  lemma OneFenced(c: CodeRange, x: nat)
    ensures InFenced([c], x) <==> c.fenced && c.range.location <= x < c.range.Max()
  {
    assert [c][1..] == [];
  }

  lemma NoneFenced(x: nat)
    ensures !InFenced([], x)
  {
  }

  lemma AtEnd(t: Text, open: Option<Opened>, code: Option<OpenFence>, start: nat, x: nat)
    requires start <= |t| && SameFence(open, code, start, |t|)
    ensures InFenced(CodeFrom(t, |t|, code), x) <==>
              Behind(code, start, x) || InFence(PiecesFrom(t, |t|, open, start), x)
  {
    var role := if open.Some? then Code(open.value.language) else Prose;
    assert [Piece(role, start, |t|)][1..] == [];
    if code.Some? { OneFenced(CodeRange(Range(code.value.start, |t| - code.value.start), true), x); }
  }

  /** Both readers of fences agree, unclosed fences included. */
  lemma FencesAgree(t: Text, x: nat)
    requires LineFeedsOnly(t)
    ensures InFence(Pieces(t), x) <==> InFenced(CodeFrom(t, 0, None), x)
  {
    FencesAgreeFrom(t, 0, None, None, 0, x);
  }

  lemma ShownTwo(t: Text, p: Piece, q: Piece, ps: seq<Piece>, id: nat)
    requires Within([p, q] + ps, |t|) && q.role.Mark?
    ensures Within(ps, |t|) && p.from <= p.to <= |t|
    ensures Shown(t, [p, q] + ps, id)
         == if BlockOf(t, p, id).Some? then [BlockOf(t, p, id).value] + Shown(t, ps, id + 1) else Shown(t, ps, id)
  {
    var all := [p, q] + ps;
    assert p in all && forall r :: r in ps ==> r in all;
    assert all[1..] == [q] + ps && all[1..][1..] == ps;
  }

  /** `append(code:)`: the block for what has been read, if there is anything to show. */
  method Append(ghost t: Text, ghost start: nat, ghost index: nat, buffer: Text, code: bool, language: Text,
      output: seq<Block>)
    returns (output': seq<Block>)
    requires start <= index <= |t| && buffer == t[start..index]
    ensures var b := BlockOf(t, Piece(if code then Code(language) else Prose, start, index), |output|);
            output' == output + if b.Some? then [b.value] else []
  {
    var content := if code then buffer else Trim(buffer);
    if content == [] { return output; }
    output' := output + [Block(|output|, content, if code then Some(language) else None, code)];
  }

  /** What is still to be shown from a line on. */
  ghost function Rest(t: Text, index: nat, open: Option<Opened>, start: nat, id: nat): seq<Block>
    requires start <= index <= |t|
  {
    PiecesWithin(t, index, open, start);
    Shown(t, PiecesFrom(t, index, open, start), id)
  }

  lemma RestAfterMark(t: Text, index: nat, open: Option<Opened>, start: nat, id: nat, open': Option<Opened>)
    requires start <= index < |t|
    requires var line := LineText(t, index);
             if open.Some? then Closing(line, open.value.fence) && open'.None?
             else Opening(line) && open' == Some(OpenedBy(line))
    ensures var b := BlockOf(t, Piece(if open.Some? then Code(open.value.language) else Prose, start, index), id);
            var max := NewlineMax(t, index);
            Rest(t, index, open, start, id)
            == if b.Some? then [b.value] + Rest(t, max, open', max, id + 1) else Rest(t, max, open', max, id)
  {
    hide LineText, Closing, BlockOf, OpenedBy, Within;
    var max := NewlineMax(t, index);
    PiecesWithin(t, index, open, start);
    ShownTwo(t, Piece(if open.Some? then Code(open.value.language) else Prose, start, index), Piece(Mark, index, max),
             PiecesFrom(t, max, open', max), id);
  }

  lemma RestAtEnd(t: Text, open: Option<Opened>, start: nat, id: nat)
    requires start <= |t|
    ensures var b := BlockOf(t, Piece(if open.Some? then Code(open.value.language) else Prose, start, |t|), id);
            Rest(t, |t|, open, start, id) == if b.Some? then [b.value] else []
  {
    hide BlockOf;
    ShownLast(t, Piece(if open.Some? then Code(open.value.language) else Prose, start, |t|), id);
  }

  lemma ShownLast(t: Text, p: Piece, id: nat)
    requires p.from <= p.to <= |t|
    ensures Within([p], |t|)
    ensures Shown(t, [p], id) == if BlockOf(t, p, id).Some? then [BlockOf(t, p, id).value] else []
  {
    hide BlockOf;
    assert [p][1..] == [];
    assert Shown(t, [], id) == [] && Shown(t, [], id + 1) == [];
  }

  /** What a line does to the fence that is open, if any. */
  method ReadMarker(trimmed: Text, marker: Option<Unit>, fenceLength: nat)
    returns (closes: bool, opens: bool, character: Unit, count: nat, behind: Text)
    requires (fenceLength == 0) == marker.None?
    ensures closes <==> marker.Some? && Closing(trimmed, Fence(marker.value, fenceLength))
    ensures opens <==> marker.None? && Opening(trimmed)
    ensures opens ==> OpenedBy(trimmed) == Opened(Fence(character, count), behind)
  {
    hide Run, TrimBlanks;
    var leadingSpaces := Run(trimmed, SPACE);
    var content := Content(trimmed);
    character := if content != [] then content[0] else 0;
    count := if content != [] && FenceUnit(character) then Run(content, character) else 0;
    behind := TrimBlanks(content[count..]);
    closes := fenceLength > 0 && leadingSpaces <= 3 && content != [] && marker == Some(character)
        && count >= fenceLength
              && behind == [];
    opens := fenceLength == 0 && leadingSpaces <= 3 && count >= 3;
  }

  method TakeLine(t: Text, offset: nat, buffer: Text, marker: Option<Unit>, fenceLength: nat, language: Text,
                  output: seq<Block>, ghost start: nat)
    returns (next: nat, buffer': Text, marker': Option<Unit>, fenceLength': nat, language': Text, output': seq<Block>,
             ghost start': nat)
    requires start <= offset < |t| && buffer == t[start..offset] && (fenceLength == 0) == marker.None?
    ensures next == NewlineMax(t, offset) && start' <= next && buffer' == t[start'..next]
    ensures (fenceLength' == 0) == marker'.None?
    ensures output + Rest(t, offset, Fencing(marker, fenceLength, language), start, |output|)
         == output' + Rest(t, next, Fencing(marker', fenceLength', language'), start', |output'|)
  {
    hide TrimNewlines, Rest, BlockOf, NewlineMax, Closing, OpenedBy;
    ghost var open := Fencing(marker, fenceLength, language);
    next := NewlineMax(t, offset);
    buffer', marker', fenceLength', language', output', start' := buffer, marker, fenceLength, language, output, start;
    var trimmed := TrimNewlines(t[offset..next]);
    var closes, opens, character, count, behind := ReadMarker(trimmed, marker, fenceLength);
    if closes {
      RestAfterMark(t, offset, open, start, |output|, None);
      output' := Append(t, start, offset, buffer, true, language, output);
      buffer', marker', fenceLength', language', start' := [], None, 0, [], next;
    } else if opens {
      assert count >= 3 by { OpenerCount(trimmed); }
      hide Opening;
      RestAfterMark(t, offset, open, start, |output|, Some(OpenedBy(trimmed)));
      output' := Append(t, start, offset, buffer, false, language, output);
      buffer', marker', fenceLength', language', start' := [], Some(character), count, behind, next;
    } else {
      hide Opening;
      RestGoesOn(t, offset, open, start, |output|);
      assert buffer + t[offset..next] == t[start..next];
      buffer' := buffer + t[offset..next];
    }
  }

  lemma OpenerCount(line: Text)
    requires Opening(line)
    ensures OpenedBy(line).fence.count >= 3
  {
  }

  lemma RestGoesOn(t: Text, index: nat, open: Option<Opened>, start: nat, id: nat)
    requires start <= index < |t|
    requires open.Some? ==> !Closing(LineText(t, index), open.value.fence)
    requires open.None? ==> !Opening(LineText(t, index))
    ensures Rest(t, index, open, start, id) == Rest(t, NewlineMax(t, index), open, start, id)
  {
    hide LineText, Closing, Opening, BlockOf;
  }

  method Blocks(t: Text) returns (output: seq<Block>)
    ensures Within(Pieces(t), |t|) && output == Shown(t, Pieces(t), 0)
  {
    PiecesWithin(t, 0, None, 0);
    output := [];
    var buffer: Text := [];
    var marker: Option<Unit> := None;
    var fenceLength: nat := 0;
    var language: Text := [];
    var offset: nat := 0;
    ghost var start: nat := 0;
    while offset < |t|
      invariant start <= offset <= |t| && buffer == t[start..offset] && (fenceLength == 0) == marker.None?
      invariant output + Rest(t, offset, Fencing(marker, fenceLength, language), start, |output|)
                == Rest(t, 0, None, 0, 0)
    {
      offset, buffer, marker, fenceLength, language, output, start :=
        TakeLine(t, offset, buffer, marker, fenceLength, language, output, start);
    }
    RestAtEnd(t, Fencing(marker, fenceLength, language), start, |output|);
    output := Append(t, start, offset, buffer, fenceLength > 0, language, output);
  }

  /** The splitter's variables for the open fence, as one value. */
  function Fencing(marker: Option<Unit>, fenceLength: nat, language: Text): Option<Opened> {
    if marker.Some? then Some(Opened(Fence(marker.value, fenceLength), language)) else None
  }
}
