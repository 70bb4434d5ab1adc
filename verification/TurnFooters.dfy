/** Host metadata on transcript rows: which rows stay visible, and where a turn's work duration stands. */
module TurnFooters {
  import opened Whitespace
  import opened Wrappers

  datatype Role = User | Assistant | OtherRole
  datatype PartKind = Tool | Reasoning | OtherPart
  datatype Part = Part(kind: PartKind, text: string)
  datatype Subagent = Subagent(id: string, title: string)

  datatype Row = Row(id: string, role: Role, text: string, parts: seq<Part>, attachments: nat, subagents: seq<Subagent>,
                     streaming: bool, timestamp: Option<int>, worked: Option<int>)

  datatype Entry = Entry(complete: bool, timestamp: Option<int>, worked: Option<int>, titles: seq<Subagent>)

  type Cache = map<string, Entry>

  /** The last title that says something wins. */
  function TitleFor(titles: seq<Subagent>, subagent: Subagent): Subagent {
    if titles == [] then subagent
    else
      var last := titles[|titles| - 1];
      if last.id == subagent.id && Trim(last.title) != "" then subagent.(title := Trim(last.title))
      else TitleFor(titles[..|titles| - 1], subagent)
  }

  function Titled(titles: seq<Subagent>, subagents: seq<Subagent>): (r: seq<Subagent>)
    ensures |r| == |subagents|
  {
    seq(|subagents|, i requires 0 <= i < |subagents| => TitleFor(titles, subagents[i]))
  }

  /** A row with the host's time and titles, and no duration yet. */
  function Prepared(cache: Cache, row: Row): Row {
    if row.id !in cache then row.(timestamp := None, worked := None)
    else
      row.(timestamp := cache[row.id].timestamp, worked := None,
           subagents := Titled(cache[row.id].titles, row.subagents))
  }

  function PreparedAll(cache: Cache, rows: seq<Row>): (r: seq<Row>)
    ensures |r| == |rows| && forall i :: 0 <= i < |r| ==> r[i] == Prepared(cache, rows[i])
  {
    seq(|rows|, i requires 0 <= i < |rows| => Prepared(cache, rows[i]))
  }

  predicate HasActivity(part: Part) {
    part.kind.Tool? || (part.kind.Reasoning? && part.text != "")
  }

  predicate HasContent(row: Row) {
    Trim(row.text) != ""
    || (exists i :: 0 <= i < |row.parts| && HasActivity(row.parts[i]))
    || row.attachments > 0 || row.subagents != []
  }

  predicate Visible(row: Row) {
    HasContent(row) || row.worked.Some?
  }

  /** Where the turn ends that starts at `start`: before the next user's row. */
  function TurnEnd(rows: seq<Row>, next: nat): (end: nat)
    requires next <= |rows|
    ensures next <= end <= |rows| && (end < |rows| ==> rows[end].role.User?)
    ensures forall i :: next <= i < end ==> !rows[i].role.User?
    decreases |rows| - next
  {
    if next < |rows| && !rows[next].role.User? then TurnEnd(rows, next + 1) else next
  }

  function LastWhere(rows: seq<Row>, start: nat, end: nat, p: Row -> bool): (i: Option<nat>)
    requires start <= end <= |rows|
    ensures i.Some? ==> start <= i.value < end && p(rows[i.value]) && forall j :: i.value < j < end ==> !p(rows[j])
    ensures i.None? ==> forall j :: start <= j < end ==> !p(rows[j])
    decreases end - start
  {
    if start == end then None
    else if p(rows[end - 1]) then Some(end - 1)
    else LastWhere(rows, start, end - 1, p)
  }

  function IsAssistant(row: Row): bool {
    row.role.Assistant?
  }

  function Anchors(row: Row): bool {
    !row.role.User? && HasContent(row)
  }

  function Timed(cache: Cache): Row -> bool {
    (row: Row) => row.role.Assistant? && row.id in cache && cache[row.id].worked.Some?
  }

  datatype Footer = Footer(anchor: nat, worked: int)

  /** The footer of the turn from `start` to `end`. */
  function FooterOf(cache: Cache, rows: seq<Row>, start: nat, end: nat, latestRunning: bool): Option<Footer>
    requires start <= end <= |rows|
  {
    var terminal := LastWhere(rows, start, end, IsAssistant);
    var source := LastWhere(rows, start, end, Timed(cache));
    if (latestRunning && end == |rows|) || terminal.None?
       || rows[terminal.value].id !in cache || !cache[rows[terminal.value].id].complete
       || (exists i :: start <= i < end && rows[i].streaming) || source.None? then None
    else
      var anchor := LastWhere(rows, start, end, Anchors);
      Some(Footer(if anchor.Some? then anchor.value else source.value, cache[rows[source.value].id].worked.value))
  }

  function Footed(rows: seq<Row>, footer: Option<Footer>): (r: seq<Row>)
    ensures |r| == |rows|
  {
    if footer.Some? && footer.value.anchor < |rows|
    then rows[footer.value.anchor := rows[footer.value.anchor].(worked := Some(footer.value.worked))] else rows
  }

  /** The rows with the footers of all turns from `start` on. */
  function WithFooters(cache: Cache, rows: seq<Row>, start: nat, latestRunning: bool): (r: seq<Row>)
    requires start <= |rows|
    ensures |r| == |rows|
    decreases |rows| - start
  {
    if start == |rows| then rows
    else
      var end := TurnEnd(rows, start + 1);
      WithFooters(cache, Footed(rows, FooterOf(cache, rows, start, end, latestRunning)), end, latestRunning)
  }

  function OnlyVisible(rows: seq<Row>): seq<Row> {
    if rows == [] then []
    else (if Visible(rows[0]) then [rows[0]] else []) + OnlyVisible(rows[1..])
  }

  function Applied(cache: Cache, rows: seq<Row>, latestRunning: bool): seq<Row> {
    OnlyVisible(WithFooters(cache, PreparedAll(cache, rows), 0, latestRunning))
  }

  method Foot(cache: Cache, rows: seq<Row>, start: nat, next: nat, latestRunning: bool) returns (result: seq<Row>)
    requires start < next <= |rows|
    ensures result == Footed(rows, FooterOf(cache, rows, start, next, latestRunning))
  {
    hide HasContent;
    result := rows;
    var terminal := LastWhere(rows, start, next, IsAssistant);
    if !(latestRunning && next == |rows|) && terminal.Some?
       && rows[terminal.value].id in cache && cache[rows[terminal.value].id].complete
       && !(exists i :: start <= i < next && rows[i].streaming) {
      var source := LastWhere(rows, start, next, Timed(cache));
      if source.Some? {
        var anchor := LastWhere(rows, start, next, Anchors);
        var at := if anchor.Some? then anchor.value else source.value;
        result := result[at := result[at].(worked := cache[rows[source.value].id].worked)];
      }
    }
  }

  method Apply(cache: Cache, messages: seq<Row>, latestRunning: bool) returns (visible: seq<Row>)
    ensures visible == Applied(cache, messages, latestRunning)
  {
    hide FooterOf, Footed, PreparedAll;
    var result := PreparedAll(cache, messages);
    var start := 0;
    while start < |result|
      invariant 0 <= start <= |result| == |messages|
      invariant WithFooters(cache, result, start, latestRunning)
             == WithFooters(cache, PreparedAll(cache, messages), 0, latestRunning)
      decreases |result| - start
    {
      var next := start + 1;
      while next < |result| && !result[next].role.User?
        invariant start < next <= |result| && TurnEnd(result, start + 1) == TurnEnd(result, next)
      {
        next := next + 1;
      }
      result := Foot(cache, result, start, next, latestRunning);
      start := next;
    }
    visible := OnlyVisible(result);
  }

  /** The turn a row belongs to, as its first row, counting from a turn's first row on. */
  function TurnStart(rows: seq<Row>, start: nat, i: nat): (s: nat)
    requires start <= i < |rows|
    ensures start <= s <= i < TurnEnd(rows, s + 1)
    decreases |rows| - start
  {
    if i < TurnEnd(rows, start + 1) then start else TurnStart(rows, TurnEnd(rows, start + 1), i)
  }

  /** Rows that differ in durations only. */
  ghost predicate SameButFooters(a: seq<Row>, b: seq<Row>) {
    |a| == |b| && forall i :: 0 <= i < |a| ==> a[i].(worked := None) == b[i].(worked := None)
  }

  lemma {:induction false} TurnsStay(a: seq<Row>, b: seq<Row>, next: nat)
    requires SameButFooters(a, b) && next <= |a|
    ensures TurnEnd(a, next) == TurnEnd(b, next)
    decreases |a| - next
  {
    if next < |a| {
      assert a[next].(worked := None).role == b[next].(worked := None).role;
      TurnsStay(a, b, next + 1);
    }
  }

  lemma {:induction false} LastStays(a: seq<Row>, b: seq<Row>, start: nat, end: nat, p: Row -> bool)
    requires SameButFooters(a, b) && start <= end <= |a|
    requires forall r: Row :: p(r) == p(r.(worked := None))
    ensures LastWhere(a, start, end, p) == LastWhere(b, start, end, p)
    decreases end - start
  {
    if start < end {
      assert p(a[end - 1]) == p(a[end - 1].(worked := None)) && p(b[end - 1]) == p(b[end - 1].(worked := None));
      LastStays(a, b, start, end - 1, p);
    }
  }

  /** Earlier footers do not matter for a turn's own. */
  lemma FootersStay(cache: Cache, a: seq<Row>, b: seq<Row>, start: nat, end: nat, latestRunning: bool)
    requires SameButFooters(a, b) && start <= end <= |a|
    ensures FooterOf(cache, a, start, end, latestRunning) == FooterOf(cache, b, start, end, latestRunning)
  {
    hide LastWhere;
    LastStays(a, b, start, end, IsAssistant);
    LastStays(a, b, start, end, Timed(cache));
    LastStays(a, b, start, end, Anchors);
    forall i | 0 <= i < |a|
      ensures a[i].id == b[i].id && a[i].streaming == b[i].streaming
    {
      assert a[i].(worked := None).id == b[i].(worked := None).id;
      assert a[i].(worked := None).streaming == b[i].(worked := None).streaming;
    }
  }

  lemma {:induction false} StartsStay(a: seq<Row>, b: seq<Row>, start: nat, i: nat)
    requires SameButFooters(a, b) && start <= i < |a|
    ensures TurnStart(a, start, i) == TurnStart(b, start, i)
    decreases |a| - start
  {
    hide SameButFooters, TurnEnd;
    assert |a| == |b| by { SameLength(a, b); }
    TurnsStay(a, b, start + 1);
    if i >= TurnEnd(a, start + 1) { StartsStay(a, b, TurnEnd(a, start + 1), i); }
  }

  lemma SameLength(a: seq<Row>, b: seq<Row>)
    requires SameButFooters(a, b)
    ensures |a| == |b|
  {
  }

  lemma FootedIsSame(rows: seq<Row>, footer: Option<Footer>)
    ensures SameButFooters(rows, Footed(rows, footer))
  {
  }

  /** The footer of the turn of row `i`. */
  function FooterAt(cache: Cache, rows: seq<Row>, start: nat, i: nat, latestRunning: bool): Option<Footer>
    requires start <= i < |rows|
  {
    var s := TurnStart(rows, start, i);
    FooterOf(cache, rows, s, TurnEnd(rows, s + 1), latestRunning)
  }

  lemma AnchorInTurn(cache: Cache, rows: seq<Row>, start: nat, latestRunning: bool)
    requires start < |rows|
    ensures var end := TurnEnd(rows, start + 1);
            var f := FooterOf(cache, rows, start, end, latestRunning);
            f.Some? ==> start <= f.value.anchor < end
  {
    hide HasContent;
  }

  /** A row with its footer, if it is the anchor. */
  function AtRow(row: Row, f: Option<Footer>, i: nat): Row {
    row.(worked := if f.Some? && f.value.anchor == i then Some(f.value.worked) else None)
  }

  lemma FootedAt(rows: seq<Row>, f: Option<Footer>, start: nat, end: nat, i: nat)
    requires start <= end <= |rows| && i < |rows| && forall k :: start <= k < |rows| ==> rows[k].worked.None?
    requires f.Some? ==> start <= f.value.anchor < end
    ensures forall k :: end <= k < |rows| ==> Footed(rows, f)[k].worked.None? && Footed(rows, f)[k] == rows[k]
    ensures i < start ==> Footed(rows, f)[i] == rows[i]
    ensures start <= i < end ==> Footed(rows, f)[i] == AtRow(rows[i], f, i)
  {
  }

  lemma LaterFooter(cache: Cache, rows: seq<Row>, rows': seq<Row>, start: nat, i: nat, latestRunning: bool)
    requires start < |rows| && TurnEnd(rows, start + 1) <= i < |rows|
    requires SameButFooters(rows, rows') && |rows'| == |rows|
    ensures FooterAt(cache, rows', TurnEnd(rows, start + 1), i, latestRunning)
            == FooterAt(cache, rows, start, i, latestRunning)
  {
    hide FooterOf, SameButFooters, TurnEnd, TurnStart;
    var end := TurnEnd(rows, start + 1);
    LaterTurn(rows, start, i);
    StartsStay(rows, rows', end, i);
    var s := TurnStart(rows, end, i);
    TurnsStay(rows, rows', s + 1);
    FootersStay(cache, rows, rows', s, TurnEnd(rows, s + 1), latestRunning);
  }

  /** The loop over turns gives every turn the footer it would get alone, at its anchor, and touches nothing else. */
  lemma {:induction false} FootersAt(cache: Cache, rows: seq<Row>, start: nat, i: nat, latestRunning: bool)
    requires start <= |rows| && i < |rows| && forall k :: start <= k < |rows| ==> rows[k].worked.None?
    ensures WithFooters(cache, rows, start, latestRunning)[i]
         == if i < start then rows[i] else AtRow(rows[i], FooterAt(cache, rows, start, i, latestRunning), i)
    decreases |rows| - start
  {
    hide FooterOf, SameButFooters, TurnStart, Footed, AtRow, FooterAt;
    if start < |rows| {
      var end := TurnEnd(rows, start + 1);
      var f := FooterOf(cache, rows, start, end, latestRunning);
      AnchorInTurn(cache, rows, start, latestRunning);
      FootedAt(rows, f, start, end, i);
      FootersAt(cache, Footed(rows, f), end, i, latestRunning);
      if start <= i < end {
        FirstFooter(cache, rows, start, i, latestRunning);
      } else if i >= end {
        FootedIsSame(rows, f);
        LaterFooter(cache, rows, Footed(rows, f), start, i, latestRunning);
      }
    }
  }

  lemma FirstFooter(cache: Cache, rows: seq<Row>, start: nat, i: nat, latestRunning: bool)
    requires start < |rows| && start <= i < TurnEnd(rows, start + 1)
    ensures FooterAt(cache, rows, start, i, latestRunning)
         == FooterOf(cache, rows, start, TurnEnd(rows, start + 1), latestRunning)
  {
    hide FooterOf;
    FirstTurn(rows, start, i);
  }

  lemma FirstTurn(rows: seq<Row>, start: nat, i: nat)
    requires start < |rows| && start <= i < TurnEnd(rows, start + 1)
    ensures TurnStart(rows, start, i) == start
  {
  }

  lemma LaterTurn(rows: seq<Row>, start: nat, i: nat)
    requires start < |rows| && TurnEnd(rows, start + 1) <= i < |rows|
    ensures TurnStart(rows, start, i) == TurnStart(rows, TurnEnd(rows, start + 1), i)
  {
  }

  lemma BelowAnchor(cache: Cache, rows: seq<Row>, i: nat, j: nat, latestRunning: bool)
    requires i < |rows| && j < |rows|
    ensures var f := FooterAt(cache, rows, 0, i, latestRunning);
            f.Some? && f.value.anchor == i ==>
              && !rows[i].role.User?
              && (i < j < TurnEnd(rows, TurnStart(rows, 0, i) + 1) ==>
                    FooterAt(cache, rows, 0, j, latestRunning) == f && !HasContent(rows[j]))
  {
    hide FooterOf, TurnStart, TurnEnd, HasContent, FooterAt;
    var s := TurnStart(rows, 0, i);
    FooterAtIs(cache, rows, i, latestRunning);
    AnchorIsLast(cache, rows, s, j, latestRunning);
    if i < j < TurnEnd(rows, s + 1) {
      SameTurn(rows, 0, i, j);
      FooterAtIs(cache, rows, j, latestRunning);
    }
  }

  lemma FooterAtIs(cache: Cache, rows: seq<Row>, i: nat, latestRunning: bool)
    requires i < |rows|
    ensures var s := TurnStart(rows, 0, i);
            FooterAt(cache, rows, 0, i, latestRunning) == FooterOf(cache, rows, s, TurnEnd(rows, s + 1), latestRunning)
  {
    hide FooterOf, TurnStart;
  }

  /** A footer stands on a row that shows and is not the user's, and no row of its turn shows below it. */
  lemma FooterIsLast(cache: Cache, rows: seq<Row>, i: nat, j: nat, latestRunning: bool)
    requires i < |rows| && j < |rows| && forall k :: 0 <= k < |rows| ==> rows[k].worked.None?
    ensures var result := WithFooters(cache, rows, 0, latestRunning);
            result[i].worked.Some? ==>
              && Visible(result[i]) && !result[i].role.User?
              && (i < j < TurnEnd(rows, TurnStart(rows, 0, i) + 1) ==> !Visible(result[j]))
  {
    hide FooterOf, FooterAt, TurnStart, TurnEnd, HasContent, WithFooters, AtRow, Visible;
    FootersAt(cache, rows, 0, i, latestRunning);
    FootersAt(cache, rows, 0, j, latestRunning);
    BelowAnchor(cache, rows, i, j, latestRunning);
    RowShows(rows[i], FooterAt(cache, rows, 0, i, latestRunning), i);
    RowShows(rows[j], FooterAt(cache, rows, 0, j, latestRunning), j);
  }

  lemma RowShows(row: Row, f: Option<Footer>, i: nat)
    ensures AtRow(row, f, i).role == row.role
    ensures AtRow(row, f, i).worked.Some? <==> f.Some? && f.value.anchor == i
    ensures Visible(AtRow(row, f, i)) <==> HasContent(row) || AtRow(row, f, i).worked.Some?
  {
  }

  lemma AnchorIsLast(cache: Cache, rows: seq<Row>, start: nat, j: nat, latestRunning: bool)
    requires start < |rows|
    ensures var end := TurnEnd(rows, start + 1);
            var f := FooterOf(cache, rows, start, end, latestRunning);
            f.Some? ==> f.value.anchor < |rows| && !rows[f.value.anchor].role.User?
                        && (f.value.anchor < j < end ==> !HasContent(rows[j]))
  {
    hide HasContent;
  }

  lemma {:induction false} SameTurn(rows: seq<Row>, start: nat, i: nat, j: nat)
    requires start <= i < j < |rows| && j < TurnEnd(rows, TurnStart(rows, start, i) + 1)
    ensures TurnStart(rows, start, j) == TurnStart(rows, start, i)
    decreases |rows| - start
  {
    hide TurnEnd;
    if i >= TurnEnd(rows, start + 1) { SameTurn(rows, TurnEnd(rows, start + 1), i, j); }
  }

  /** What a footer says, and when there is one: the turn's last assistant row is complete, nothing in the turn streams,
      it is not the running one, and the duration is that of its last timed assistant row. */
  lemma FooterConditions(cache: Cache, rows: seq<Row>, start: nat, end: nat, latestRunning: bool)
    requires start <= end <= |rows|
    ensures var f := FooterOf(cache, rows, start, end, latestRunning);
            f.Some? <==>
              && !(latestRunning && end == |rows|) && (forall i :: start <= i < end ==> !rows[i].streaming)
              && (exists i :: start <= i < end && Timed(cache)(rows[i]))
              && (forall i :: start <= i < end && rows[i].role.Assistant?
                              && (forall j :: i < j < end ==> !rows[j].role.Assistant?) ==>
                    rows[i].id in cache && cache[rows[i].id].complete)
    ensures var f := FooterOf(cache, rows, start, end, latestRunning);
            f.Some? ==>
              exists i :: start <= i < end && Timed(cache)(rows[i]) && cache[rows[i].id].worked == Some(f.value.worked)
                          && forall j :: i < j < end ==> !Timed(cache)(rows[j])
  {
  }

  /** Order-preserving: the `j`-th visible row comes from `Origin(rows, j)`, later ones from later rows, and every row
      that shows is there. */
  function Origin(rows: seq<Row>, j: nat): (i: nat)
    requires j < |OnlyVisible(rows)|
    ensures i < |rows| && rows[i] == OnlyVisible(rows)[j] && Visible(rows[i])
  {
    if Visible(rows[0]) then (if j == 0 then 0 else 1 + Origin(rows[1..], j - 1)) else 1 + Origin(rows[1..], j)
  }

  lemma {:induction false} OriginsRise(rows: seq<Row>, j: nat, k: nat)
    requires j < k < |OnlyVisible(rows)|
    ensures Origin(rows, j) < Origin(rows, k)
  {
    hide Visible;
    if Visible(rows[0]) {
      if j > 0 { OriginsRise(rows[1..], j - 1, k - 1); }
    } else {
      OriginsRise(rows[1..], j, k);
    }
  }

  lemma {:induction false} VisibleStays(rows: seq<Row>, i: nat)
    requires i < |rows| && Visible(rows[i])
    ensures exists j :: 0 <= j < |OnlyVisible(rows)| && Origin(rows, j) == i
  {
    hide Visible;
    if i == 0 {
      assert Origin(rows, 0) == 0;
    } else {
      VisibleStays(rows[1..], i - 1);
      var j :| 0 <= j < |OnlyVisible(rows[1..])| && Origin(rows[1..], j) == i - 1;
      assert Origin(rows, if Visible(rows[0]) then j + 1 else j) == i;
    }
  }

  /** The message a returned row comes from. */
  function Source(cache: Cache, messages: seq<Row>, latestRunning: bool, j: nat): (i: nat)
    requires j < |Applied(cache, messages, latestRunning)|
    ensures i < |messages|
  {
    Origin(WithFooters(cache, PreparedAll(cache, messages), 0, latestRunning), j)
  }

  /** The row of a message: with the host's time and titles, and with the footer of its turn if that stands there. */
  function Finished(cache: Cache, messages: seq<Row>, latestRunning: bool, i: nat): Row
    requires i < |messages|
  {
    AtRow(Prepared(cache, messages[i]), FooterAt(cache, PreparedAll(cache, messages), 0, i, latestRunning), i)
  }

  /** The main result about the returned rows: they are the messages in their order, each with its own time and titles
      and with its turn's footer at the anchor; and a row with a footer is the last one returned of its turn. */
  lemma AppliedRows(cache: Cache, messages: seq<Row>, latestRunning: bool, j: nat, k: nat)
    requires j < |Applied(cache, messages, latestRunning)| && k < |Applied(cache, messages, latestRunning)|
    ensures var i, row := Source(cache, messages, latestRunning, j), Applied(cache, messages, latestRunning)[j];
            && row == Finished(cache, messages, latestRunning, i) && Visible(row)
            && (j < k ==>
                  var later, rows := Source(cache, messages, latestRunning, k), PreparedAll(cache, messages);
                  i < later && (row.worked.Some? ==>
                    !row.role.User? && TurnStart(rows, 0, i) != TurnStart(rows, 0, later)))
  {
    hide Prepared, AtRow, FooterAt, Visible, WithFooters, TurnStart, OnlyVisible, Origin;
    var rows := PreparedAll(cache, messages);
    var i, later := Source(cache, messages, latestRunning, j), Source(cache, messages, latestRunning, k);
    NoneTimed(cache, messages);
    FootersAt(cache, rows, 0, i, latestRunning);
    if j < k {
      OriginsRise(WithFooters(cache, rows, 0, latestRunning), j, k);
      FooterIsLast(cache, rows, i, later, latestRunning);
    }
  }

  lemma NoneTimed(cache: Cache, messages: seq<Row>)
    ensures forall k :: 0 <= k < |messages| ==> PreparedAll(cache, messages)[k].worked.None?
  {
  }

  /** And none is missing: a message is returned exactly when it has something to show or the footer of its turn. */
  lemma AppliedKeeps(cache: Cache, messages: seq<Row>, latestRunning: bool, i: nat)
    requires i < |messages|
    ensures Visible(Finished(cache, messages, latestRunning, i)) <==>
            exists j :: 0 <= j < |Applied(cache, messages, latestRunning)|
                        && Source(cache, messages, latestRunning, j) == i
  {
    hide Prepared, AtRow, FooterAt, Visible, WithFooters, OnlyVisible, Origin;
    var rows := PreparedAll(cache, messages);
    var result := WithFooters(cache, rows, 0, latestRunning);
    NoneTimed(cache, messages);
    FootersAt(cache, rows, 0, i, latestRunning);
    if Visible(result[i]) {
      VisibleStays(result, i);
      var j :| 0 <= j < |OnlyVisible(result)| && Origin(result, j) == i;
      assert Source(cache, messages, latestRunning, j) == i;
    }
  }
}
