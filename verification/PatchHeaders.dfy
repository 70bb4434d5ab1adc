/** The header syntax of a unified diff: numbers, `@@` ranges, quoted and plain paths. */
module PatchHeaders {
  import opened Wrappers
  import opened Text

  /** Swift's `Int.max` on a 64-bit platform. */
  const INT_MAX: nat := 0x7FFF_FFFF_FFFF_FFFF

  predicate IsDigit(c: char) {
    '0' <= c <= '9'
  }

  function DigitsValue(s: string): Option<nat> {
    if s == "" then Some(0)
    else
      var last := s[|s| - 1];
      var front := DigitsValue(s[..|s| - 1]);
      if front.Some? && IsDigit(last) then Some(front.value * 10 + (last - '0') as nat) else None
  }

  /** `Int(_: String)`: an optional sign, at least one digit, and no overflow. */
  function ParseInt(s: string): Option<int> {
    if s == "" then None
    else
      var signed := s[0] == '-' || s[0] == '+';
      var digits := if signed then s[1..] else s;
      var value := DigitsValue(digits);
      if digits == "" || value.None? then None
      else if s[0] == '-' then (if value.value <= INT_MAX + 1 then Some(0 - value.value) else None)
      else if value.value <= INT_MAX then Some(value.value) else None
  }

  function NonEmpty(parts: seq<string>): seq<string> {
    if parts == [] then []
    else if parts[0] == "" then NonEmpty(parts[1..])
    else [parts[0]] + NonEmpty(parts[1..])
  }

  /** `split(separator: " ", omittingEmptySubsequences: true)`. */
  function Words(s: string): seq<string> {
    NonEmpty(Split(s, ' '))
  }

  datatype Range = Range(start: nat, count: nat)

  datatype HunkHeader = HunkHeader(oldRange: Range, newRange: Range)

  /** A range never passes the largest integer, and only an empty one may start at line 0. */
  predicate ValidRange(r: Range) {
    r.start + r.count <= INT_MAX && (r.count == 0 || r.start > 0)
  }

  function ParseRange(text: string, prefix: char): (r: Option<Range>)
    ensures r.Some? ==> ValidRange(r.value)
  {
    if text == "" || text[0] != prefix then None
    else
      var values := Split(text[1..], ',');
      if |values| > 2 then None
      else
        var start := ParseInt(values[0]);
        var count := if |values| == 2 then ParseInt(values[1]) else Some(1);
        if start.None? || start.value < 0 || count.None? || count.value < 0 then None
        else if start.value > INT_MAX - count.value then None
        else if count.value != 0 && start.value == 0 then None
        else Some(Range(start.value, count.value))
  }

  function ParseHeader(line: string): (h: Option<HunkHeader>)
    ensures h.Some? ==> ValidRange(h.value.oldRange) && ValidRange(h.value.newRange)
  {
    var parts := Words(line);
    if |parts| < 4 || parts[0] != "@@" || parts[3] != "@@" then None
    else
      var oldRange := ParseRange(parts[1], '-');
      var newRange := ParseRange(parts[2], '+');
      if oldRange.None? || newRange.None? then None else Some(HunkHeader(oldRange.value, newRange.value))
  }

  predicate IsOctal(c: char) {
    '0' <= c <= '7'
  }

  /** How many of the next at most `limit` bytes are octal digits. */
  function OctalRun(s: string, limit: nat): (n: nat)
    ensures n <= limit && n <= |s|
    ensures forall i :: 0 <= i < n ==> IsOctal(s[i])
    ensures n < limit && n < |s| ==> !IsOctal(s[n])
  {
    if limit == 0 || s == "" || !IsOctal(s[0]) then 0 else 1 + OctalRun(s[1..], limit - 1)
  }

  function OctalValue(s: string): nat
    requires forall i :: 0 <= i < |s| ==> IsOctal(s[i])
  {
    if s == "" then 0
    else
      assert IsOctal(s[|s| - 1]);
      OctalValue(s[..|s| - 1]) * 8 + (s[|s| - 1] - '0') as nat
  }

  /** The byte a letter escape of Git stands for; any other byte stands for itself. */
  function Letter(c: char): char {
    match c
    case 't' => 9 as char
    case 'n' => 10 as char
    case 'r' => 13 as char
    case 'b' => 8 as char
    case 'f' => 12 as char
    case 'v' => 11 as char
    case 'a' => 7 as char
    case _ => c
  }

  /** What the next escape or plain byte stands for, and how many bytes it takes. */
  function Chunk(u: string): (chunk: (string, nat))
    requires u != ""
    ensures 1 <= chunk.1 <= |u|
  {
    if u[0] != '\\' || |u| == 1 then ([u[0]], 1)
    else if IsOctal(u[1]) then
      var n := OctalRun(u[1..], 3);
      var value := OctalValue(u[1..][..n]);
      (if value <= 255 then [value as char] else "", 1 + n)
    else ([Letter(u[1])], 2)
  }

  function Unescape(u: string): string
    decreases |u|
  {
    if u == "" then "" else Chunk(u).0 + Unescape(u[Chunk(u).1..])
  }

  predicate Quoted(raw: string) {
    |raw| >= 2 && raw[0] == '"' && raw[|raw| - 1] == '"'
  }

  function PathOf(raw: string): string {
    if Quoted(raw) then Unescape(raw[1..|raw| - 1]) else raw
  }

  function StripPrefix(path: string): string {
    if "a/" <= path || "b/" <= path then path[2..] else path
  }

  function HeaderPath(text: string): Option<string> {
    var path := PathOf(Split(text, '\t')[0]);
    if path == "/dev/null" then None else Some(StripPrefix(path))
  }

  /** The first quote from `cursor` on that no backslash escapes, or the length. */
  function ClosingQuote(value: string, cursor: nat, escaped: bool): (end: nat)
    requires cursor <= |value|
    ensures cursor <= end <= |value|
    ensures end < |value| ==> value[end] == '"'
    decreases |value| - cursor
  {
    if cursor == |value| then cursor
    else if value[cursor] == '"' && !escaped then cursor
    else ClosingQuote(value, cursor + 1, value[cursor] == '\\' && !escaped)
  }

  predicate At(s: string, i: nat, p: string) {
    i + |p| <= |s| && s[i..i + |p|] == p
  }

  /** `range(of:)`: the first place where `p` occurs. */
  function Find(s: string, p: string, from: nat): (r: Option<nat>)
    ensures r.Some? ==> from <= r.value && At(s, r.value, p) && forall i :: from <= i < r.value ==> !At(s, i, p)
    ensures r.None? ==> forall i :: from <= i ==> !At(s, i, p)
    decreases |s| - from
  {
    if from + |p| > |s| then None
    else if s[from..from + |p|] == p then Some(from)
    else Find(s, p, from + 1)
  }

  datatype Paths = Paths(oldPath: Option<string>, newPath: Option<string>)

  function GitHeaderPaths(value: string): Paths {
    var close := if value != "" && value[0] == '"' then ClosingQuote(value, 1, false) else |value|;
    if close < |value| then
      Paths(Some(StripPrefix(PathOf(value[..close + 1]))), Some(StripPrefix(PathOf(TrimBlank(value[close + 1..])))))
    else
      var boundary := Find(value, " b/", 0);
      if boundary.None? then Paths(None, None)
      else Paths(Some(StripPrefix(value[..boundary.value])), Some(value[boundary.value + 3..]))
  }

  /** The digit loop of an octal escape, which starts at `from`. */
  method ReadOctal(units: string, from: nat) returns (number: nat, index: nat)
    requires from < |units|
    ensures index == from + OctalRun(units[from..], 3)
    ensures number == OctalValue(units[from..][..index - from])
  {
    ghost var rest := units[from..];
    ghost var n := OctalRun(rest, 3);
    number, index := 0, from;
    var digits := 0;
    while index < |units| && digits < 3 && IsOctal(units[index])
      invariant digits <= n && digits <= 3 && index == from + digits <= |units|
      invariant number == OctalValue(rest[..digits])
    {
      assert units[index] == rest[digits];
      assert rest[..digits + 1][..digits] == rest[..digits];
      number := number * 8 + (units[index] - '0') as nat;
      index := index + 1;
      digits := digits + 1;
    }
  }

  /** One turn of the decoding loop. */
  method DecodeChunk(units: string, index: nat) returns (output: string, next: nat)
    requires index < |units|
    ensures index < next <= |units| && (output, next - index) == Chunk(units[index..])
  {
    ghost var rest := units[index..];
    if units[index] != '\\' || index + 1 >= |units| {
      return [units[index]], index + 1;
    }
    if IsOctal(units[index + 1]) {
      assert units[index + 1..] == rest[1..];
      var number;
      number, next := ReadOctal(units, index + 1);
      output := if number <= 255 then [number as char] else "";
    } else {
      return [Letter(units[index + 1])], index + 2;
    }
  }

  /** The decoding loop, over the bytes between the quotes. */
  method DecodePath(raw: string) returns (path: string)
    ensures path == PathOf(raw)
  {
    hide Chunk;
    if !Quoted(raw) { return raw; }
    var units := raw[1..|raw| - 1];
    path := "";
    var index := 0;
    while index < |units|
      invariant 0 <= index <= |units|
      invariant Unescape(units) == path + Unescape(units[index..])
    {
      var output, next := DecodeChunk(units, index);
      assert units[index..][next - index..] == units[next..];
      path := path + output;
      index := next;
    }
  }

  /** The cursor loop over a `diff --git` header. */
  method ReadGitHeader(value: string) returns (paths: Paths)
    ensures paths == GitHeaderPaths(value)
  {
    if value != "" && value[0] == '"' {
      var escaped, cursor := false, 1;
      while cursor < |value|
        invariant 1 <= cursor <= |value|
        invariant ClosingQuote(value, 1, false) == ClosingQuote(value, cursor, escaped)
      {
        var here := value[cursor];
        if here == '"' && !escaped {
          var first := DecodePath(value[..cursor + 1]);
          var rest := DecodePath(TrimBlank(value[cursor + 1..]));
          return Paths(Some(StripPrefix(first)), Some(StripPrefix(rest)));
        }
        escaped := here == '\\' && !escaped;
        cursor := cursor + 1;
      }
    }
    var boundary := Find(value, " b/", 0);
    if boundary.Some? {
      return Paths(Some(StripPrefix(value[..boundary.value])), Some(value[boundary.value + 3..]));
    }
    return Paths(None, None);
  }
}
