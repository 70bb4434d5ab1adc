/** Lines and fence lines of Markdown text, as the two readers of fenced code look at them. */
module MarkdownLines {
  import opened ReferenceText

  const LF: Unit := 10
  const TAB: Unit := 9
  const SPACE: Unit := 32
  const BACKTICK: Unit := 96
  const TILDE: Unit := 126

  /** `CharacterSet.newlines`, and what `Character.isNewline` accepts. */
  predicate Newline(u: Unit) {
    10 <= u <= 13 || u == 0x85 || u == 0x2028 || u == 0x2029
  }

  /** What ends a line for `NSString.lineRange(for:)`. */
  predicate LineEnd(u: Unit) {
    u == 10 || u == 13 || u == 0x85 || u == 0x2028 || u == 0x2029
  }

  /** `CharacterSet.whitespaces`. */
  predicate Blank(u: Unit) {
    u == SPACE || u == TAB || u == 0xA0 || u == 0x1680 || 0x2000 <= u <= 0x200A
    || u == 0x202F || u == 0x205F || u == 0x3000
  }

  predicate AllBlank(t: Text) {
    forall i :: 0 <= i < |t| ==> Blank(t[i])
  }

  /** Text whose only line terminator is the line feed. */
  predicate LineFeedsOnly(t: Text) {
    forall i :: 0 <= i < |t| ==> Newline(t[i]) ==> t[i] == LF
  }

  /** The offset behind the line that starts at or before `i`, its terminator included. */
  function LineMax(t: Text, i: nat): (n: nat)
    requires i < |t|
    ensures i < n <= |t|
    decreases |t| - i
  {
    if LineEnd(t[i]) then (if t[i] == 13 && i + 1 < |t| && t[i + 1] == LF then i + 2 else i + 1)
    else if i + 1 == |t| then i + 1
    else LineMax(t, i + 1)
  }

  /** The same for a `String` cut behind its first newline character. */
  function NewlineMax(t: Text, i: nat): (n: nat)
    requires i < |t|
    ensures i < n <= |t|
    decreases |t| - i
  {
    if Newline(t[i]) then (if t[i] == 13 && i + 1 < |t| && t[i + 1] == LF then i + 2 else i + 1)
    else if i + 1 == |t| then i + 1
    else NewlineMax(t, i + 1)
  }

  lemma {:induction false} SameLines(t: Text, i: nat)
    requires i < |t| && LineFeedsOnly(t)
    ensures LineMax(t, i) == NewlineMax(t, i)
    decreases |t| - i
  {
    assert Newline(t[i]) ==> t[i] == LF;
    if !Newline(t[i]) && i + 1 < |t| { SameLines(t, i + 1); }
  }

  /** `trimmingCharacters(in: .newlines)`, which works from both ends. */
  function TrimNewlines(t: Text): Text {
    if t != [] && Newline(t[0]) then TrimNewlines(t[1..])
    else if t != [] && Newline(t[|t| - 1]) then TrimNewlines(t[..|t| - 1])
    else t
  }

  /** How often `u` is repeated at the start. */
  function Run(t: Text, u: Unit): (n: nat)
    ensures n <= |t| && (forall i :: 0 <= i < n ==> t[i] == u) && (n < |t| ==> t[n] != u)
  {
    if t == [] || t[0] != u then 0 else 1 + Run(t[1..], u)
  }

  /** A line without its terminator and without up to three leading spaces. */
  function Content(line: Text): Text {
    line[(if Run(line, SPACE) < 3 then Run(line, SPACE) else 3)..]
  }

  predicate FenceUnit(u: Unit) {
    u == BACKTICK || u == TILDE
  }

  datatype Fence = Fence(marker: Unit, count: nat)
}
