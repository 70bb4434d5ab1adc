/** Retained usage warnings: one per session, of the account that raised it, and never one that was dismissed. */
module UsageWarnings {
  import opened Wrappers

  /** A `Double`, as far as the limit cares. */
  datatype Fraction = Finite(value: real) | NotFinite

  datatype Source = Source(session: string, host: string, provider: string, account: string, upstream: Option<string>,
                           model: Option<string>, observed: int)

  datatype Warning = Warning(remaining: Fraction, source: Option<Source>)

  const LIMIT := 0.1000001

  /** `warning(remaining:)` makes a warning of this fraction. */
  predicate Low(remaining: Fraction) {
    remaining.Finite? && 0.0 <= remaining.value <= LIMIT
  }

  predicate Valid(n: Warning, dismissed: set<string>) {
    && n.source.Some? && n.source.value.session != "" && n.source.value.host != "" && n.source.value.provider != ""
    && n.source.value.account != "" && n.source.value.session !in dismissed && Low(n.remaining)
  }

  predicate SameOwner(a: Source, b: Source) {
    a.host == b.host && a.account == b.account && a.provider == b.provider && a.upstream == b.upstream
  }

  /** The place of a session's warning. */
  function PlaceOf(result: seq<Warning>, session: string): (i: Option<nat>)
    ensures i.Some? ==>
              i.value < |result| && result[i.value].source.Some? && result[i.value].source.value.session == session
    ensures i.None? ==> forall k :: 0 <= k < |result| ==>
                          result[k].source.None? || result[k].source.value.session != session
  {
    if result == [] then None
    else if result[0].source.Some? && result[0].source.value.session == session then Some(0)
    else
      var rest := PlaceOf(result[1..], session);
      if rest.Some? then Some(rest.value + 1) else None
  }

  /** A valid notice takes its place: that of its session's warning if it is newer and of the same owner, else the
      end. */
  function Insert(result: seq<Warning>, n: Warning): seq<Warning>
    requires n.source.Some?
    decreases |result|
  {
    if result == [] then [n]
    else if Of(result[0], n.source.value.session) then [Newer(result[0], n)] + result[1..]
    else [result[0]] + Insert(result[1..], n)
  }

  predicate Of(n: Warning, session: string) {
    n.source.Some? && n.source.value.session == session
  }

  function Newer(existing: Warning, n: Warning): Warning
    requires existing.source.Some? && n.source.Some?
  {
    if SameOwner(existing.source.value, n.source.value) && existing.source.value.observed <= n.source.value.observed
    then n else existing
  }

  function MergeOne(result: seq<Warning>, n: Warning, dismissed: set<string>): seq<Warning> {
    if Valid(n, dismissed) then Insert(result, n) else result
  }

  function Onto(result: seq<Warning>, notices: seq<Warning>, dismissed: set<string>): seq<Warning>
    decreases |notices|
  {
    if notices == [] then result else Onto(MergeOne(result, notices[0], dismissed), notices[1..], dismissed)
  }

  function Merged(notices: seq<Warning>, dismissed: set<string>): seq<Warning> {
    Onto([], notices, dismissed)
  }

  lemma {:induction false} InsertIs(result: seq<Warning>, n: Warning)
    requires n.source.Some?
    ensures var i := PlaceOf(result, n.source.value.session);
            Insert(result, n) == if i.None? then result + [n] else result[i.value := Newer(result[i.value], n)]
    decreases |result|
  {
    if result != [] && !Of(result[0], n.source.value.session) {
      InsertIs(result[1..], n);
      assert result == [result[0]] + result[1..];
    }
  }

  method MergeWarnings(restored: seq<Warning>, observations: seq<Warning>, dismissed: set<string>)
    returns (result: seq<Warning>)
    ensures result == Merged(restored + observations, dismissed)
  {
    var notices := restored + observations;
    result := [];
    var k := 0;
    while k < |notices|
      invariant 0 <= k <= |notices| && Onto(result, notices[k..], dismissed) == Merged(notices, dismissed)
    {
      var notice := notices[k];
      assert notices[k..][1..] == notices[k + 1..];
      k := k + 1;
      if notice.source.None? { continue; }
      var source := notice.source.value;
      if source.session == "" || source.host == "" || source.provider == "" || source.account == ""
         || source.session in dismissed || !Low(notice.remaining) { continue; }
      var index := PlaceOf(result, source.session);
      InsertIs(result, notice);
      if index.None? {
        result := result + [notice];
      } else {
        var existing := result[index.value].source.value;
        assert result == result[index.value := result[index.value]];
        if existing.host != source.host || existing.account != source.account || existing.provider != source.provider
           || existing.upstream != source.upstream || existing.observed > source.observed { continue; }
        result := result[index.value := notice];
      }
    }
  }

  lemma {:induction false} OntoJoin(result: seq<Warning>, a: seq<Warning>, b: seq<Warning>, dismissed: set<string>)
    ensures Onto(result, a + b, dismissed) == Onto(Onto(result, a, dismissed), b, dismissed)
    decreases |a|
  {
    if a == [] {
      assert a + b == b;
    } else {
      assert (a + b)[1..] == a[1..] + b;
      OntoJoin(MergeOne(result, a[0], dismissed), a[1..], b, dismissed);
    }
  }

  /** Valid warnings, one for each of their sessions. */
  ghost predicate OneEach(result: seq<Warning>, dismissed: set<string>) {
    && (forall k :: 0 <= k < |result| ==> Valid(result[k], dismissed))
    && (forall j, k :: 0 <= j < k < |result| ==> result[j].source.value.session != result[k].source.value.session)
  }

  lemma InsertKeeps(result: seq<Warning>, n: Warning, dismissed: set<string>)
    requires OneEach(result, dismissed) && Valid(n, dismissed)
    ensures OneEach(Insert(result, n), dismissed)
  {
    InsertIs(result, n);
  }

  lemma {:induction false} OntoKeeps(result: seq<Warning>, notices: seq<Warning>, dismissed: set<string>)
    requires OneEach(result, dismissed)
    ensures OneEach(Onto(result, notices, dismissed), dismissed)
    decreases |notices|
  {
    hide Valid, OneEach;
    if notices != [] {
      if Valid(notices[0], dismissed) { InsertKeeps(result, notices[0], dismissed); }
      OntoKeeps(MergeOne(result, notices[0], dismissed), notices[1..], dismissed);
    }
  }

  /** The result of a merge has one valid warning per session, and none that was dismissed. */
  lemma MergedIsOneEach(notices: seq<Warning>, dismissed: set<string>)
    ensures OneEach(Merged(notices, dismissed), dismissed)
  {
    OntoKeeps([], notices, dismissed);
  }

  /** The valid notices about one session, in order. */
  function About(notices: seq<Warning>, session: string, dismissed: set<string>): seq<Warning> {
    if notices == [] then []
    else
      (if Valid(notices[0], dismissed) && Of(notices[0], session) then [notices[0]] else [])
      + About(notices[1..], session, dismissed)
  }

  function Entry(result: seq<Warning>, session: string): Option<Warning>
    decreases |result|
  {
    if result == [] then None else if Of(result[0], session) then Some(result[0]) else Entry(result[1..], session)
  }

  /** Among the notices about a session, the kept one belongs to the owner of the first; of this owner's it is a
      newest, and the last of these. */
  ghost predicate Best(about: seq<Warning>, kept: Warning) {
    && about != [] && (forall k :: 0 <= k < |about| ==> about[k].source.Some?)
    && exists i :: 0 <= i < |about| && about[i] == kept && IsBest(about, i)
  }

  ghost predicate IsBest(about: seq<Warning>, i: nat)
    requires i < |about| && forall k :: 0 <= k < |about| ==> about[k].source.Some?
  {
    && SameOwner(about[0].source.value, about[i].source.value)
    && forall k :: 0 <= k < |about| && SameOwner(about[0].source.value, about[k].source.value) ==>
         && about[k].source.value.observed <= about[i].source.value.observed
         && (i < k ==> about[k].source.value.observed < about[i].source.value.observed)
  }

  lemma {:induction false} EntryOfInsert(result: seq<Warning>, n: Warning, session: string)
    requires n.source.Some?
    ensures Entry(Insert(result, n), session)
         == if !Of(n, session) then Entry(result, session)
            else Some(if Entry(result, session).Some? && Entry(result, session).value.source.Some?
                      then Newer(Entry(result, session).value, n) else n)
    decreases |result|
  {
    if result != [] && !Of(result[0], n.source.value.session) {
      EntryOfInsert(result[1..], n, session);
      assert ([result[0]] + Insert(result[1..], n))[1..] == Insert(result[1..], n);
    } else if result != [] {
      assert ([Newer(result[0], n)] + result[1..])[1..] == result[1..];
    } else {
      assert [n][1..] == [];
    }
  }

  lemma BestGrows(about: seq<Warning>, kept: Warning, n: Warning)
    requires Best(about, kept) && n.source.Some? && kept.source.Some?
    ensures Best(about + [n], Newer(kept, n))
  {
    var i :| 0 <= i < |about| && about[i] == kept && IsBest(about, i);
    var more := about + [n];
    if Newer(kept, n) == n && SameOwner(kept.source.value, n.source.value)
       && kept.source.value.observed <= n.source.value.observed {
      assert more[|about|] == n && IsBest(more, |about|);
    } else {
      assert more[i] == kept && IsBest(more, i);
    }
  }

  /** The entry of a session answers to the notices about it so far. */
  ghost predicate Answers(entry: Option<Warning>, about: seq<Warning>) {
    if about == [] then entry.None? else entry.Some? && Best(about, entry.value)
  }

  lemma OneAnswers(result: seq<Warning>, before: seq<Warning>, n: Warning, session: string)
    requires Answers(Entry(result, session), before) && n.source.Some?
    ensures Answers(Entry(Insert(result, n), session), if Of(n, session) then before + [n] else before)
  {
    hide Best, Newer, Entry;
    EntryOfInsert(result, n, session);
    if Of(n, session) {
      if before == [] {
        OnlyIsBest(n);
        assert before + [n] == [n];
      } else {
        BestHasSource(before, Entry(result, session).value);
        BestGrows(before, Entry(result, session).value, n);
      }
    }
  }

  lemma {:induction false} EntryIsBest(result: seq<Warning>, before: seq<Warning>, notices: seq<Warning>,
                                       session: string, dismissed: set<string>)
    requires Answers(Entry(result, session), before)
    ensures Answers(Entry(Onto(result, notices, dismissed), session), before + About(notices, session, dismissed))
    decreases |notices|
  {
    hide Valid, Of, Answers, Entry, Insert;
    if notices == [] {
      assert before + [] == before;
    } else {
      var n := notices[0];
      var mine := Valid(n, dismissed) && Of(n, session);
      var before' := if mine then before + [n] else before;
      if Valid(n, dismissed) {
        ValidHasSource(n, dismissed);
        OneAnswers(result, before, n, session);
      }
      EntryIsBest(MergeOne(result, n, dismissed), before', notices[1..], session, dismissed);
      assert before' + About(notices[1..], session, dismissed) == before + About(notices, session, dismissed);
    }
  }

  lemma ValidHasSource(n: Warning, dismissed: set<string>)
    requires Valid(n, dismissed)
    ensures n.source.Some?
  {
  }

  lemma OnlyIsBest(n: Warning)
    requires n.source.Some?
    ensures Best([n], n)
  {
    assert [n][0] == n && IsBest([n], 0);
  }

  lemma BestHasSource(about: seq<Warning>, kept: Warning)
    requires Best(about, kept)
    ensures kept.source.Some?
  {
  }

  /** A session has a warning exactly when a valid notice is about it, and then the best of these. */
  lemma MergedKeepsBest(notices: seq<Warning>, session: string, dismissed: set<string>)
    ensures Answers(Entry(Merged(notices, dismissed), session), About(notices, session, dismissed))
  {
    EntryIsBest([], [], notices, session, dismissed);
    assert [] + About(notices, session, dismissed) == About(notices, session, dismissed);
  }

  /** The warnings of sessions that are not dismissed. */
  function Undismissed(result: seq<Warning>, dismissed: set<string>): seq<Warning> {
    if result == [] then []
    else
      (if result[0].source.Some? && result[0].source.value.session !in dismissed then [result[0]] else [])
      + Undismissed(result[1..], dismissed)
  }

  lemma {:induction false} InsertUndismissed(result: seq<Warning>, n: Warning, dismissed: set<string>)
    requires n.source.Some?
    ensures Undismissed(Insert(result, n), dismissed)
         == if n.source.value.session in dismissed then Undismissed(result, dismissed)
            else Insert(Undismissed(result, dismissed), n)
    decreases |result|
  {
    if result == [] {
      assert [n][1..] == [];
    } else if Of(result[0], n.source.value.session) {
      assert ([Newer(result[0], n)] + result[1..])[1..] == result[1..];
      var rest := Undismissed(result[1..], dismissed);
      assert ([result[0]] + rest)[1..] == rest;
    } else {
      InsertUndismissed(result[1..], n, dismissed);
      var more := [result[0]] + Insert(result[1..], n);
      assert more[1..] == Insert(result[1..], n);
      var rest := Undismissed(result[1..], dismissed);
      if result[0].source.Some? && result[0].source.value.session !in dismissed {
        assert Undismissed(more, dismissed) == [result[0]] + Undismissed(more[1..], dismissed);
        assert ([result[0]] + rest)[1..] == rest;
        assert Insert([result[0]] + rest, n) == [result[0]] + Insert(rest, n);
      } else {
        assert Undismissed(more, dismissed) == Undismissed(more[1..], dismissed);
        assert Undismissed(result, dismissed) == rest;
      }
    }
  }

  /** Dismissing later leaves what dismissing from the start leaves. */
  lemma {:induction false} OntoUndismissed(result: seq<Warning>, notices: seq<Warning>, early: set<string>,
      late: set<string>)
    requires early <= late
    ensures Undismissed(Onto(result, notices, early), late) == Onto(Undismissed(result, late), notices, late)
    decreases |notices|
  {
    if notices != [] {
      var n := notices[0];
      if n.source.Some? { InsertUndismissed(result, n, late); }
      OntoUndismissed(MergeOne(result, n, early), notices[1..], early, late);
    }
  }

  /** Merging what was merged already changes nothing but takes out what has been dismissed. */
  lemma {:induction false} OntoDistinct(result: seq<Warning>, more: seq<Warning>, early: set<string>, late: set<string>)
    requires OneEach(result + more, early) && early <= late
    ensures Onto(Undismissed(result, late), more, late) == Undismissed(result + more, late)
    decreases |more|
  {
    if more == [] {
      assert result + more == result;
    } else {
      var n := more[0];
      assert (result + more)[|result|] == n && (result + [n]) + more[1..] == result + more;
      OntoDistinct(result + [n], more[1..], early, late);
      UndismissedJoin(result, [n], late);
      assert Undismissed([n], late) == if n.source.value.session in late then [] else [n] by { assert [n][1..] == []; }
      if n.source.value.session !in late {
        NoneAbout(result, n.source.value.session, late) by {
          assert forall k :: 0 <= k < |result| ==> (result + more)[k] == result[k];
        }
        InsertIs(Undismissed(result, late), n);
      } else {
        assert Undismissed(result + [n], late) == Undismissed(result, late);
      }
    }
  }

  lemma {:induction false} UndismissedJoin(a: seq<Warning>, b: seq<Warning>, dismissed: set<string>)
    ensures Undismissed(a + b, dismissed) == Undismissed(a, dismissed) + Undismissed(b, dismissed)
  {
    if a == [] {
      assert a + b == b;
    } else {
      assert (a + b)[1..] == a[1..] + b;
      UndismissedJoin(a[1..], b, dismissed);
    }
  }

  lemma {:induction false} NoneAbout(result: seq<Warning>, session: string, dismissed: set<string>)
    requires forall k :: 0 <= k < |result| ==> !Of(result[k], session)
    ensures PlaceOf(Undismissed(result, dismissed), session).None?
  {
    if result != [] {
      NoneAbout(result[1..], session, dismissed);
      var rest := Undismissed(result[1..], dismissed);
      assert ([result[0]] + rest)[1..] == rest;
    }
  }

  /** Merging in stages, with dismissals in between, is merging at once. */
  lemma StagesAreOne(first: seq<Warning>, second: seq<Warning>, early: set<string>, late: set<string>)
    requires early <= late
    ensures Merged(Merged(first, early) + second, late) == Merged(first + second, late)
  {
    var stage := Merged(first, early);
    MergedIsOneEach(first, early);
    OntoJoin([], stage, second, late);
    OntoJoin([], first, second, late);
    assert [] + stage == stage;
    OntoDistinct([], stage, early, late);
    OntoUndismissed([], first, early, late);
  }

  /** The other order is not the same: a merge below earlier notices has already dropped what a second owner's
      warning shadowed. So it does when preferences are read only after something was observed. */
  lemma LateStageDiffers(saved: Warning, other: Warning, newer: Warning)
    requires Valid(saved, {}) && Valid(other, {}) && Valid(newer, {}) && saved != newer
    requires Of(other, saved.source.value.session) && Of(newer, saved.source.value.session)
    requires SameOwner(saved.source.value, newer.source.value) && !SameOwner(saved.source.value, other.source.value)
    requires saved.source.value.observed <= newer.source.value.observed
    ensures Merged([saved] + Merged([other, newer], {}), {}) == [saved]
    ensures Merged([saved] + [other, newer], {}) == [newer]
  {
    assert saved.source.Some? && other.source.Some? && newer.source.Some?;
    hide Low;
    assert [other, newer][1..] == [newer] && [newer][1..] == [] && [other][1..] == [];
    assert Insert([], other) == [other] && Insert([other], newer) == [other];
    assert Merged([other, newer], {}) == [other] by {
      assert Onto([other], [newer], {}) == Onto([other], [], {});
    }
    assert [saved, other][1..] == [other] && [saved, other, newer][1..] == [other, newer] && [saved][1..] == [];
    assert Insert([], saved) == [saved] && Insert([saved], other) == [saved] && Insert([saved], newer) == [newer];
    assert Onto([saved], [other], {}) == Onto([saved], [], {});
    assert Onto([saved], [other, newer], {}) == Onto([saved], [newer], {}) == Onto([newer], [], {});
    assert [saved] + [other] == [saved, other] && [saved] + [other, newer] == [saved, other, newer];
  }

  /** The preferences that hold warnings. */
  class Preferences {
    var usageWarnings: seq<Warning>
    var dismissedUsageSessions: set<string>

    function Now(): Notices
      reads this
    {
      Notices(usageWarnings, dismissedUsageSessions)
    }

    constructor ()
      ensures Now() == Notices([], {})
    {
      usageWarnings, dismissedUsageSessions := [], {};
    }

    method Observe(observations: seq<Warning>)
      modifies this
      ensures Now() == Observed(old(Now()), observations)
    {
      var retained := MergeWarnings(usageWarnings, observations, dismissedUsageSessions);
      if retained != usageWarnings { usageWarnings := retained; }
    }

    method Dismiss()
      modifies this
      ensures Now() == Dismissed(old(Now()))
    {
      var warning := ShownWarning(usageWarnings, dismissedUsageSessions);
      if warning.None? { return; }
      var id := warning.value.source.value.session;
      dismissedUsageSessions := dismissedUsageSessions + {id};
      var kept, k := [], 0;
      while k < |usageWarnings|
        invariant 0 <= k <= |usageWarnings| && usageWarnings == old(usageWarnings)
        invariant dismissedUsageSessions == old(dismissedUsageSessions) + {id}
        invariant WithoutSession(usageWarnings, id) == kept + WithoutSession(usageWarnings[k..], id)
      {
        if !Of(usageWarnings[k], id) { kept := kept + [usageWarnings[k]]; }
        k := k + 1;
      }
      usageWarnings := kept;
    }

    method MergeRestored(saved: Notices)
      modifies this
      ensures Now() == RestoredOver(old(Now()), saved)
    {
      dismissedUsageSessions := saved.dismissed + dismissedUsageSessions;
      usageWarnings := MergeWarnings(saved.warnings, usageWarnings, dismissedUsageSessions);
    }
  }

  datatype Notices = Notices(warnings: seq<Warning>, dismissed: set<string>)

  /** The warning on show. */
  function ShownWarning(warnings: seq<Warning>, dismissed: set<string>): (w: Option<Warning>)
    ensures w.Some? ==> w.value in warnings && w.value.source.Some? && w.value.source.value.session !in dismissed
  {
    if warnings == [] then None
    else if warnings[0].source.Some? && warnings[0].source.value.session !in dismissed then Some(warnings[0])
    else ShownWarning(warnings[1..], dismissed)
  }

  function WithoutSession(warnings: seq<Warning>, session: string): seq<Warning> {
    if warnings == [] then []
    else (if Of(warnings[0], session) then [] else [warnings[0]]) + WithoutSession(warnings[1..], session)
  }

  function Observed(p: Notices, observations: seq<Warning>): Notices {
    p.(warnings := Merged(p.warnings + observations, p.dismissed))
  }

  function Dismissed(p: Notices): Notices {
    var w := ShownWarning(p.warnings, p.dismissed);
    if w.None? then p
    else
      var id := w.value.source.value.session;
      Notices(WithoutSession(p.warnings, id), p.dismissed + {id})
  }

  function RestoredOver(p: Notices, saved: Notices): Notices {
    var dismissed := saved.dismissed + p.dismissed;
    Notices(Merged(saved.warnings + p.warnings, dismissed), dismissed)
  }

  datatype Event = Observes(observations: seq<Warning>) | Dismisses | Restores(saved: Notices)

  function Step(p: Notices, e: Event): Notices {
    match e
    case Observes(observations) => Observed(p, observations)
    case Dismisses => Dismissed(p)
    case Restores(saved) => RestoredOver(p, saved)
  }

  function Run(p: Notices, events: seq<Event>): Notices {
    if events == [] then p else Step(Run(p, events[..|events| - 1]), events[|events| - 1])
  }

  lemma {:induction false} WithoutIsUndismissed(warnings: seq<Warning>, dismissed: set<string>, id: string)
    requires forall k :: 0 <= k < |warnings| ==> Valid(warnings[k], dismissed)
    ensures WithoutSession(warnings, id) == Undismissed(warnings, dismissed + {id})
  {
    if warnings != [] {
      assert forall k :: 0 <= k < |warnings[1..]| ==> warnings[1..][k] == warnings[k + 1];
      WithoutIsUndismissed(warnings[1..], dismissed, id);
    }
  }

  lemma StepKeepsOneEach(p: Notices, e: Event)
    requires OneEach(p.warnings, p.dismissed)
    ensures OneEach(Step(p, e).warnings, Step(p, e).dismissed) && p.dismissed <= Step(p, e).dismissed
  {
    hide OneEach;
    match e {
      case Observes(observations) => MergedIsOneEach(p.warnings + observations, p.dismissed);
      case Dismisses => DismissKeepsOneEach(p);
      case Restores(saved) => MergedIsOneEach(saved.warnings + p.warnings, saved.dismissed + p.dismissed);
    }
  }

  /** Taking a dismissed warning out is merging again without its session. */
  lemma DismissIsMerge(p: Notices)
    requires OneEach(p.warnings, p.dismissed)
    ensures Dismissed(p).warnings == Merged(p.warnings, Dismissed(p).dismissed) && p.dismissed <= Dismissed(p).dismissed
  {
    var w := ShownWarning(p.warnings, p.dismissed);
    var late := Dismissed(p).dismissed;
    assert [] + p.warnings == p.warnings;
    OntoDistinct([], p.warnings, p.dismissed, late);
    if w.Some? {
      WithoutIsUndismissed(p.warnings, p.dismissed, w.value.source.value.session);
    } else {
      AllUndismissed(p.warnings, p.dismissed);
    }
  }

  lemma {:induction false} AllUndismissed(warnings: seq<Warning>, dismissed: set<string>)
    requires forall k :: 0 <= k < |warnings| ==> Valid(warnings[k], dismissed)
    ensures Undismissed(warnings, dismissed) == warnings
  {
    if warnings != [] {
      assert forall k :: 0 <= k < |warnings[1..]| ==> warnings[1..][k] == warnings[k + 1];
      AllUndismissed(warnings[1..], dismissed);
    }
  }

  lemma DismissKeepsOneEach(p: Notices)
    requires OneEach(p.warnings, p.dismissed)
    ensures OneEach(Dismissed(p).warnings, Dismissed(p).dismissed) && p.dismissed <= Dismissed(p).dismissed
  {
    hide OneEach;
    DismissIsMerge(p);
    MergedIsOneEach(p.warnings, Dismissed(p).dismissed);
  }

  lemma {:induction false} RunKeepsOneEach(p: Notices, events: seq<Event>)
    requires OneEach(p.warnings, p.dismissed)
    ensures OneEach(Run(p, events).warnings, Run(p, events).dismissed) && p.dismissed <= Run(p, events).dismissed
  {
    hide OneEach, Step;
    if events != [] {
      RunKeepsOneEach(p, events[..|events| - 1]);
      StepKeepsOneEach(Run(p, events[..|events| - 1]), events[|events| - 1]);
    }
  }

  /** A dismissed warning never returns, whatever is observed, dismissed and read from disk later. */
  lemma DismissedNeverReturns(p: Notices, events: seq<Event>, session: string)
    requires OneEach(p.warnings, p.dismissed) && session in p.dismissed
    ensures forall k :: 0 <= k < |Run(p, events).warnings| ==> !Of(Run(p, events).warnings[k], session)
    ensures ShownWarning(Run(p, events).warnings, Run(p, events).dismissed).Some? ==>
              !Of(ShownWarning(Run(p, events).warnings, Run(p, events).dismissed).value, session)
  {
    hide Run;
    RunKeepsOneEach(p, events);
  }

  lemma MergedAgain(p: Notices)
    requires OneEach(p.warnings, p.dismissed)
    ensures Merged(p.warnings, p.dismissed) == p.warnings
  {
    assert [] + p.warnings == p.warnings;
    OntoDistinct([], p.warnings, p.dismissed, p.dismissed);
    AllUndismissed(p.warnings, p.dismissed);
  }
}
