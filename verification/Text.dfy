/** Byte strings and the library calls on them that the diff parser uses: splitting and
    joining at a separator byte. A Swift String is its UTF-8 bytes, one char per byte. */
module Text {

  /** `split(separator:omittingEmptySubsequences: false)`: never empty, "" gives [""]. */
  function Split(s: string, sep: char): (parts: seq<string>)
    ensures |parts| >= 1
  {
    if s == "" then [""]
    else
      var rest := Split(s[1..], sep);
      if s[0] == sep then [""] + rest else [[s[0]] + rest[0]] + rest[1..]
  }

  /** `joined(separator:)`. */
  function Join(parts: seq<string>, sep: char): string {
    if parts == [] then ""
    else if |parts| == 1 then parts[0]
    else parts[0] + [sep] + Join(parts[1..], sep)
  }

  /** These three bytes stand at the front. */
  predicate Bytes3(s: string, a: int, b: int, low: int, high: int) {
    |s| >= 3 && s[0] as int == a && s[1] as int == b && low <= s[2] as int <= high
  }

  /** The UTF-8 length (section 3 of RFC 3629) of a character of `CharacterSet.whitespaces` at the front, 0 without
      one: tab and space, U+00A0, U+1680, U+2000 to U+200A, U+202F, U+205F and U+3000. */
  function BlankBytes(s: string): (n: nat)
    ensures n <= |s|
  {
    if s == "" then 0
    else if s[0] == ' ' || s[0] == '\t' then 1
    else if |s| >= 2 && s[0] as int == 0xC2 && s[1] as int == 0xA0 then 2
    else if Bytes3(s, 0xE1, 0x9A, 0x80, 0x80) || Bytes3(s, 0xE2, 0x80, 0x80, 0x8A) || Bytes3(s, 0xE2, 0x80, 0xAF, 0xAF)
            || Bytes3(s, 0xE2, 0x81, 0x9F, 0x9F) || Bytes3(s, 0xE3, 0x80, 0x80, 0x80) then 3
    else 0
  }

  /** The same for `CharacterSet.newlines`: U+000A to U+000D, U+0085, U+2028 and U+2029. */
  function NewlineBytes(s: string): (n: nat)
    ensures n <= |s|
  {
    if s == "" then 0
    else if '\n' <= s[0] <= '\r' then 1
    else if |s| >= 2 && s[0] as int == 0xC2 && s[1] as int == 0x85 then 2
    else if Bytes3(s, 0xE2, 0x80, 0xA8, 0xA9) then 3
    else 0
  }

  /** The length of a blank at the end, 0 without one. */
  function BlankTail(s: string): (n: nat)
    ensures n <= |s|
  {
    if |s| >= 1 && BlankBytes(s[|s| - 1..]) == 1 then 1
    else if |s| >= 2 && BlankBytes(s[|s| - 2..]) == 2 then 2
    else if |s| >= 3 && BlankBytes(s[|s| - 3..]) == 3 then 3
    else 0
  }

  /** `trimmingCharacters(in: .whitespaces)`. */
  function TrimBlank(s: string): string
    decreases |s|
  {
    if BlankBytes(s) > 0 then TrimBlank(s[BlankBytes(s)..])
    else if BlankTail(s) > 0 then TrimBlank(s[..|s| - BlankTail(s)])
    else s
  }

  /** Nothing is left when `.whitespacesAndNewlines` is trimmed. */
  predicate AllWhite(s: string)
    decreases |s|
  {
    if BlankBytes(s) > 0 then AllWhite(s[BlankBytes(s)..])
    else if NewlineBytes(s) > 0 then AllWhite(s[NewlineBytes(s)..])
    else s == ""
  }

  /** Every line closed by its own line feed. */
  function Unlines(lines: seq<string>): string {
    if lines == [] then "" else lines[0] + "\n" + Unlines(lines[1..])
  }

  predicate Free(s: string, c: char) {
    c !in s
  }

  predicate AllFree(parts: seq<string>, c: char) {
    forall i :: 0 <= i < |parts| ==> Free(parts[i], c)
  }

  lemma {:induction false} JoinOfSplit(s: string, sep: char)
    ensures Join(Split(s, sep), sep) == s
  {
    if s != "" {
      JoinOfSplit(s[1..], sep);
      var rest := Split(s[1..], sep);
      if s[0] == sep {
        assert ([""] + rest)[1..] == rest;
      } else {
        assert ([[s[0]] + rest[0]] + rest[1..])[1..] == rest[1..];
        assert s == [s[0]] + s[1..];
      }
    }
  }

  lemma {:induction false} SplitAtSeparator(a: string, b: string, sep: char)
    requires Free(a, sep)
    ensures Split(a + [sep] + b, sep) == [a] + Split(b, sep)
  {
    if a == "" {
      assert (a + [sep] + b)[1..] == b;
    } else {
      SplitAtSeparator(a[1..], b, sep);
      assert (a + [sep] + b)[1..] == a[1..] + [sep] + b;
      assert a == [a[0]] + a[1..];
    }
  }

  lemma {:induction false} SplitFree(a: string, sep: char)
    requires Free(a, sep)
    ensures Split(a, sep) == [a]
  {
    if a != "" {
      SplitFree(a[1..], sep);
      assert a == [a[0]] + a[1..];
    }
  }

  lemma {:induction false} PartsAreFree(s: string, sep: char)
    ensures AllFree(Split(s, sep), sep)
  {
    if s != "" {
      PartsAreFree(s[1..], sep);
    }
  }

  lemma {:induction false} SplitOfUnlines(lines: seq<string>)
    requires AllFree(lines, '\n')
    ensures Split(Unlines(lines), '\n') == lines + [""]
  {
    if lines != [] {
      SplitOfUnlines(lines[1..]);
      SplitAtSeparator(lines[0], Unlines(lines[1..]), '\n');
      assert lines[0] + "\n" + Unlines(lines[1..]) == lines[0] + ['\n'] + Unlines(lines[1..]);
      assert lines == [lines[0]] + lines[1..];
    }
  }

  lemma Starts(prefix: string, line: string)
    requires prefix != ""
    ensures prefix <= line ==> line != "" && line[0] == prefix[0]
  {
  }

  lemma {:induction false} UnlinesJoins(lines: seq<string>)
    requires lines != []
    ensures Unlines(lines) == Join(lines, '\n') + "\n"
  {
    if |lines| > 1 {
      UnlinesJoins(lines[1..]);
    }
  }

  lemma TailOfConcat<T>(a: seq<T>, b: seq<T>)
    requires a != []
    ensures (a + b)[0] == a[0] && (a + b)[1..] == a[1..] + b
  {
  }

  lemma JoinHead(parts: seq<string>)
    requires |parts| > 1
    ensures Join(parts, '\n') == parts[0] + ['\n'] + Join(parts[1..], '\n')
  {
  }

  lemma UnlinesHead(lines: seq<string>)
    requires lines != []
    ensures Unlines(lines) == lines[0] + ['\n'] + Unlines(lines[1..])
  {
  }

  lemma {:induction false} UnlinesConcat(a: seq<string>, b: seq<string>)
    ensures Unlines(a + b) == Unlines(a) + Unlines(b)
  {
    if a == [] {
      assert a + b == b;
    } else {
      hide Unlines;
      UnlinesConcat(a[1..], b);
      TailOfConcat(a, b);
      UnlinesHead(a + b);
      UnlinesHead(a);
    }
  }

  lemma {:induction false} JoinConcat(a: seq<string>, b: seq<string>)
    requires b != []
    ensures Join(a + b, '\n') == Unlines(a) + Join(b, '\n')
  {
    if a == [] {
      assert a + b == b;
    } else {
      hide Join, Unlines;
      JoinConcat(a[1..], b);
      TailOfConcat(a, b);
      JoinHead(a + b);
      UnlinesHead(a);
    }
  }
}
