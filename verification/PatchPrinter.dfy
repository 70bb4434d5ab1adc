/** A printer of unified diffs in Git's form, and that the header parsers undo what it writes. */
module PatchPrinter {
  import opened Wrappers
  import opened Text
  import opened PatchHeaders
  import opened DiffDocument
  import opened PatchReader

  function Decimal(n: nat): string {
    if n < 10 then [DigitChar(n)] else Decimal(n / 10) + [DigitChar(n % 10)]
  }

  function DigitChar(d: nat): char
    requires d < 10
  {
    '0' + d as char
  }

  /** Git leaves the count out when it is 1. */
  function RangeText(r: Range, short: bool): string {
    if short && r.count == 1 then Decimal(r.start) else Decimal(r.start) + "," + Decimal(r.count)
  }

  function OctalText(n: nat): string
    requires n < 512
  {
    [DigitChar(n / 64), DigitChar(n / 8 % 8), DigitChar(n % 8)]
  }

  /** How Git writes one byte of a quoted path. */
  function Escape(c: char): string
    requires c as int < 256
  {
    if c == '"' then "\\\""
    else if c == '\\' then "\\\\"
    else if c as int == 7 then "\\a"
    else if c as int == 8 then "\\b"
    else if c as int == 9 then "\\t"
    else if c as int == 10 then "\\n"
    else if c as int == 11 then "\\v"
    else if c as int == 12 then "\\f"
    else if c as int == 13 then "\\r"
    else if c as int < 32 || c as int >= 127 then ['\\'] + OctalText(c as int)
    else [c]
  }

  predicate Bytes(s: string) {
    forall i :: 0 <= i < |s| ==> s[i] as int < 256
  }

  function EscapeAll(s: string): string
    requires Bytes(s)
  {
    if s == "" then "" else Escape(s[0]) + EscapeAll(s[1..])
  }

  predicate EndsInReturn(s: string) {
    s != "" && s[|s| - 1] == '\r'
  }

  /** Any byte may stand in a quoted path; a plain one must fit on its header line. */
  predicate Printable(path: string, quoted: bool) {
    if quoted then Bytes(path) else Free(path, '\n') && Free(path, '\t') && !EndsInReturn(path)
  }

  function PathText(path: string, quoted: bool): string
    requires quoted ==> Bytes(path)
  {
    if quoted then "\"" + EscapeAll(path) + "\"" else path
  }

  lemma {:induction false} DecimalDigits(n: nat)
    ensures Decimal(n) != "" && forall i :: 0 <= i < |Decimal(n)| ==> IsDigit(Decimal(n)[i])
    ensures DigitsValue(Decimal(n)) == Some(n)
  {
    if n < 10 {
      assert [DigitChar(n)][..0] == "";
      assert DigitsValue("") == Some(0);
    } else {
      DecimalDigits(n / 10);
      assert Decimal(n)[..|Decimal(n)| - 1] == Decimal(n / 10);
    }
  }

  lemma DecimalParses(n: nat)
    requires n <= INT_MAX
    ensures ParseInt(Decimal(n)) == Some(n)
    ensures Free(Decimal(n), ',') && Free(Decimal(n), ' ') && Free(Decimal(n), '\n')
  {
    DecimalDigits(n);
    assert IsDigit(Decimal(n)[0]);
  }

  lemma RangeParses(r: Range, short: bool, prefix: char)
    requires ValidRange(r) && prefix != ' '
    ensures ParseRange([prefix] + RangeText(r, short), prefix) == Some(r)
    ensures Free([prefix] + RangeText(r, short), ' ')
  {
    DecimalParses(r.start);
    DecimalParses(r.count);
    var text := [prefix] + RangeText(r, short);
    assert text[1..] == RangeText(r, short);
    if short && r.count == 1 {
      SplitFree(Decimal(r.start), ',');
    } else {
      SplitAtSeparator(Decimal(r.start), Decimal(r.count), ',');
      assert Decimal(r.start) + [','] + Decimal(r.count) == RangeText(r, short);
      SplitFree(Decimal(r.count), ',');
    }
  }

  function HeaderText(oldRange: Range, newRange: Range, short: bool, section: string): string {
    "@@ -" + RangeText(oldRange, short) + " +" + RangeText(newRange, short) + " @@" + section
  }

  lemma NextWord(word: string, rest: string)
    requires word != "" && Free(word, ' ')
    ensures Words(word + " " + rest) == [word] + Words(rest)
  {
    SplitAtSeparator(word, rest, ' ');
    assert word + " " + rest == word + [' '] + rest;
  }

  lemma LastWord(word: string, section: string)
    requires word != "" && Free(word, ' ') && (section != "" ==> section[0] == ' ')
    ensures Words(word + section) != [] && Words(word + section)[0] == word
  {
    if section == "" {
      assert word + section == word;
      SplitFree(word, ' ');
    } else {
      NextWord(word, section[1..]);
      assert word + section == word + " " + section[1..];
    }
  }

  /** The header parser undoes the printed header, with any section heading behind it. */
  lemma HeaderParses(oldRange: Range, newRange: Range, short: bool, section: string)
    requires ValidRange(oldRange) && ValidRange(newRange) && (section != "" ==> section[0] == ' ')
    ensures ParseHeader(HeaderText(oldRange, newRange, short, section)) == Some(HunkHeader(oldRange, newRange))
  {
    hide ParseRange, Words, RangeText;
    var o := "-" + RangeText(oldRange, short);
    var n := "+" + RangeText(newRange, short);
    RangeParses(oldRange, short, '-');
    RangeParses(newRange, short, '+');
    NextWord("@@", o + " " + (n + " " + ("@@" + section)));
    NextWord(o, n + " " + ("@@" + section));
    NextWord(n, "@@" + section);
    LastWord("@@", section);
    assert HeaderText(oldRange, newRange, short, section)
        == "@@" + " " + (o + " " + (n + " " + ("@@" + section)));
  }

  lemma OctalAppend(s: string, d: nat)
    requires d < 8 && forall i :: 0 <= i < |s| ==> IsOctal(s[i])
    ensures IsOctal(DigitChar(d)) && OctalValue(s + [DigitChar(d)]) == OctalValue(s) * 8 + d
  {
    assert (s + [DigitChar(d)])[..|s|] == s;
  }

  lemma OctalTextValue(n: nat)
    requires n < 512
    ensures forall i :: 0 <= i < 3 ==> IsOctal(OctalText(n)[i])
    ensures OctalValue(OctalText(n)) == n
  {
    hide OctalValue;
    var a, b, c := n / 64, n / 8 % 8, n % 8;
    assert OctalValue("") == 0 by { NoOctal(); }
    OctalAppend("", a);
    OctalAppend([DigitChar(a)], b);
    OctalAppend([DigitChar(a), DigitChar(b)], c);
    assert "" + [DigitChar(a)] == [DigitChar(a)];
    assert [DigitChar(a)] + [DigitChar(b)] == [DigitChar(a), DigitChar(b)];
    assert [DigitChar(a), DigitChar(b)] + [DigitChar(c)] == OctalText(n);
    assert n / 8 == a * 8 + b;
  }

  lemma NoOctal()
    ensures OctalValue("") == 0
  {
  }

  lemma EscapeDecodes(c: char, rest: string)
    requires c as int < 256
    ensures Escape(c) + rest != "" && Chunk(Escape(c) + rest) == ([c], |Escape(c)|)
  {
    var u := Escape(c) + rest;
    if c != '\\' && c != '"' && (c as int < 7 || 13 < c as int < 32 || c as int >= 127) {
      var o := OctalText(c as int);
      assert u[1..][..3] == o;
      assert IsOctal(o[0]) && IsOctal(o[1]) && IsOctal(o[2]);
      assert OctalRun(u[1..], 3) == 3;
      OctalTextValue(c as int);
    }
  }

  lemma {:induction false} EscapesDecode(s: string)
    requires Bytes(s)
    ensures Unescape(EscapeAll(s)) == s
    ensures Free(EscapeAll(s), '\n') && Free(EscapeAll(s), '\t') && Free(EscapeAll(s), '\r')
  {
    hide Chunk, Escape;
    if s != "" {
      EscapesDecode(s[1..]);
      EscapeDecodes(s[0], EscapeAll(s[1..]));
      EscapeIsClean(s[0]);
      assert (Escape(s[0]) + EscapeAll(s[1..]))[|Escape(s[0])|..] == EscapeAll(s[1..]);
    }
  }

  lemma EscapeIsClean(c: char)
    requires c as int < 256
    ensures Free(Escape(c), '\n') && Free(Escape(c), '\t') && Free(Escape(c), '\r')
  {
  }

  /** A path is read back from either form of it. */
  lemma PathParses(path: string, quoted: bool)
    requires Printable(path, quoted) && (!quoted ==> path != "" && path[0] != '"')
    ensures PathOf(PathText(path, quoted)) == path
    ensures Free(PathText(path, quoted), '\n') && Free(PathText(path, quoted), '\t')
    ensures !EndsInReturn(PathText(path, quoted))
  {
    if quoted {
      EscapesDecode(path);
      assert PathText(path, quoted)[1..|PathText(path, quoted)| - 1] == EscapeAll(path);
    }
  }

  ghost predicate Occurs(s: string, p: string) {
    exists i: nat :: At(s, i, p)
  }

  /** Unquoted paths are told apart by the first " b/": both are read back exactly when the old path
      holds none itself. */
  lemma PlainGitHeader(x: string, y: string)
    ensures GitHeaderPaths("a/" + x + " b/" + y) == Paths(Some(x), Some(y)) <==> !Occurs(x, " b/")
  {
    hide Quoted, PathOf, TrimBlank;
    var value := "a/" + x + " b/" + y;
    var p := 2 + |x|;
    assert At(value, p, " b/");
    var boundary := Find(value, " b/", 0).value;
    assert value[..p] == "a/" + x && value[..p][2..] == x && value[p + 3..] == y;
    if boundary < p {
      EarlierBoundary(x, y, boundary);
      assert At(x, boundary - 2, " b/");
      assert |StripPrefix(value[..boundary])| == boundary - 2;
    } else {
      forall i: nat
        ensures !At(x, i, " b/")
      {
        if i + 3 <= |x| {
          assert !At(value, i + 2, " b/");
          assert value[i + 2..i + 5] == x[i..i + 3];
        }
      }
    }
  }

  lemma EarlierBoundary(x: string, y: string, i: nat)
    requires At("a/" + x + " b/" + y, i, " b/") && i < 2 + |x|
    ensures i >= 2 && At(x, i - 2, " b/")
    ensures "a/" <= ("a/" + x + " b/" + y)[..i]
  {
    var value := "a/" + x + " b/" + y;
    assert value[i..i + 3][0] == ' ' && value[i..i + 3][1] == 'b' && value[i..i + 3][2] == '/';
    assert value[0] == 'a' && value[1] == '/' && value[2 + |x|] == ' ' && value[3 + |x|] == 'b';
    assert value[i..i + 3] == x[i - 2..i + 1];
  }

  /** A character for itself, or a backslash with a letter or three digits behind it. */
  lemma EscapeShape(c: char)
    requires c as int < 256
    ensures var e := Escape(c);
            || (|e| == 1 && e[0] != '"' && e[0] != '\\')
            || (|e| == 2 && e[0] == '\\')
            || (|e| == 4 && e[0] == '\\' && forall k :: 2 <= k < 4 ==> e[k] != '"' && e[k] != '\\')
  {
  }

  lemma QuoteSkips(value: string, cursor: nat, escaped: bool)
    requires cursor < |value| && (value[cursor] != '"' || escaped)
    ensures ClosingQuote(value, cursor, escaped)
         == ClosingQuote(value, cursor + 1, value[cursor] == '\\' && !escaped)
  {
  }

  lemma EscapeHidesQuotes(value: string, cursor: nat, c: char)
    requires c as int < 256 && At(value, cursor, Escape(c))
    ensures ClosingQuote(value, cursor, false) == ClosingQuote(value, cursor + |Escape(c)|, false)
  {
    var e := Escape(c);
    hide ClosingQuote, Escape, OctalText;
    EscapeShape(c);
    assert value[cursor..cursor + |e|][0] == e[0];
    QuoteSkips(value, cursor, false);
    if |e| > 1 { QuoteSkips(value, cursor + 1, true); }
    if |e| == 4 {
      assert value[cursor..cursor + 4][2] == e[2] && value[cursor..cursor + 4][3] == e[3];
      QuoteSkips(value, cursor + 2, false);
      QuoteSkips(value, cursor + 3, false);
    }
  }

  lemma {:induction false} EscapesHideQuotes(value: string, cursor: nat, s: string)
    requires Bytes(s) && At(value, cursor, EscapeAll(s))
    ensures ClosingQuote(value, cursor, false) == ClosingQuote(value, cursor + |EscapeAll(s)|, false)
    decreases |s|
  {
    hide ClosingQuote, Escape;
    if s != "" {
      var n := |Escape(s[0])|;
      assert value[cursor..cursor + n] == value[cursor..cursor + |EscapeAll(s)|][..n];
      assert value[cursor + n..cursor + n + |EscapeAll(s[1..])|] == value[cursor..cursor + |EscapeAll(s)|][n..];
      EscapeHidesQuotes(value, cursor, s[0]);
      EscapesHideQuotes(value, cursor + n, s[1..]);
    }
  }

  lemma TrimsQuoted(quoted: string)
    requires |quoted| >= 2 && quoted[0] == '"' && quoted[|quoted| - 1] == '"'
    ensures TrimBlank(" " + quoted) == quoted
  {
    assert (" " + quoted)[1..] == quoted;
    assert BlankBytes(quoted) == 0 && BlankTail(quoted) == 0;
  }

  /** Quoted paths are always read back from the `diff --git` line. */
  lemma QuotedGitHeader(x: string, y: string)
    requires Bytes(x) && Bytes(y)
    ensures GitHeaderPaths(PathText("a/" + x, true) + " " + PathText("b/" + y, true)) == Paths(Some(x), Some(y))
  {
    hide EscapeAll, PathOf, Find, TrimBlank;
    var first, second := PathText("a/" + x, true), PathText("b/" + y, true);
    PathParses("a/" + x, true);
    PathParses("b/" + y, true);
    var value := first + " " + second;
    var close := |first| - 1;
    assert At(value, 1, EscapeAll("a/" + x));
    EscapesHideQuotes(value, 1, "a/" + x);
    assert value[close] == '"' && ClosingQuote(value, close, false) == close;
    assert value[..close + 1] == first && value[close + 1..] == " " + second;
    TrimsQuoted(second);
  }
}
