/** When the order of merging matters: warnings read from disk below warnings that were merged before. */
module WarningStages {
  import opened Wrappers
  import opened UsageWarnings

  /** The notices of one owner, in order. */
  function Owned(about: seq<Warning>, owner: Source): seq<Warning> {
    if about == [] then []
    else
      (if about[0].source.Some? && SameOwner(owner, about[0].source.value) then [about[0]] else [])
      + Owned(about[1..], owner)
  }

  /** The last of the newest of some notices. */
  function Newest(notices: seq<Warning>): (n: Warning)
    requires notices != [] && AllSourced(notices)
    ensures n in notices && n.source.Some?
  {
    if |notices| == 1 then notices[0]
    else
      var rest := Newest(notices[1..]);
      if notices[0].source.value.observed <= rest.source.value.observed then rest else notices[0]
  }

  predicate AllSourced(notices: seq<Warning>) {
    forall k :: 0 <= k < |notices| ==> notices[k].source.Some?
  }

  lemma {:induction false} OwnedSourced(about: seq<Warning>, owner: Source)
    requires AllSourced(about)
    ensures AllSourced(Owned(about, owner))
    ensures forall n :: n in Owned(about, owner) ==> n.source.Some? && SameOwner(owner, n.source.value)
  {
    if about != [] {
      assert forall k :: 0 <= k < |about[1..]| ==> about[1..][k] == about[k + 1];
      OwnedSourced(about[1..], owner);
    }
  }

  /** The notice kept of a session: the newest of the first one's owner. */
  function KeptOf(about: seq<Warning>): (n: Warning)
    requires about != [] && AllSourced(about)
    ensures n.source.Some?
  {
    OwnedSourced(about, about[0].source.value);
    Newest(Owned(about, about[0].source.value))
  }

  /** For one session, merging later notices `b` first does not matter below `a`: one side is silent, both begin with
      the same owner, or what `b` has of the owner of `a` would not replace what is kept of `a`. */
  predicate AgreesAt(a: seq<Warning>, b: seq<Warning>)
    requires AllSourced(a) && AllSourced(b)
  {
    || a == [] || b == []
    || SameOwner(a[0].source.value, b[0].source.value)
    || (OwnedSourced(b, a[0].source.value);
        var more := Owned(b, a[0].source.value);
        || (forall k :: 0 <= k < |more| ==> more[k].source.value.observed < KeptOf(a).source.value.observed)
        || (more != [] && Newest(more) == KeptOf(a)))
  }

  /** A session's warning when more notices about it follow. */
  function Follow(entry: Option<Warning>, about: seq<Warning>): (r: Option<Warning>)
    requires AllSourced(about) && (entry.Some? ==> entry.value.source.Some?)
    ensures r.Some? ==> r.value.source.Some?
    decreases |about|
  {
    if about == [] then entry
    else
      assert forall k :: 0 <= k < |about[1..]| ==> about[1..][k] == about[k + 1];
      Follow(Some(if entry.Some? then Newer(entry.value, about[0]) else about[0]), about[1..])
  }

  /** Following notices change a warning only through the newest of its own owner's. */
  lemma {:induction false} FollowIsNewest(e: Warning, about: seq<Warning>)
    requires AllSourced(about) && e.source.Some?
    ensures AllSourced(Owned(about, e.source.value))
    ensures var more := Owned(about, e.source.value);
            Follow(Some(e), about) == Some(if more == [] then e else Newer(e, Newest(more)))
    decreases |about|
  {
    hide Newer, Newest;
    OwnedSourced(about, e.source.value);
    if about != [] {
      var n, rest := about[0], about[1..];
      assert forall k :: 0 <= k < |rest| ==> rest[k] == about[k + 1];
      NewerOwner(e, n);
      FollowIsNewest(Newer(e, n), rest);
      SameOwned(rest, e.source.value, Newer(e, n).source.value);
      var tail := Owned(rest, e.source.value);
      assert tail == Owned(rest, Newer(e, n).source.value);
      if SameOwner(e.source.value, n.source.value) {
        OwnedSourced(rest, e.source.value);
        assert Owned(about, e.source.value) == [n] + tail;
        NewerTwice(e, n, tail);
      } else {
        assert Owned(about, e.source.value) == tail;
      }
    }
  }

  lemma NewerOwner(e: Warning, n: Warning)
    requires e.source.Some? && n.source.Some?
    ensures Newer(e, n).source.Some? && SameOwner(e.source.value, Newer(e, n).source.value)
    ensures !SameOwner(e.source.value, n.source.value) ==> Newer(e, n) == e
  {
  }

  lemma NewerTwice(e: Warning, n: Warning, tail: seq<Warning>)
    requires e.source.Some? && n.source.Some? && SameOwner(e.source.value, n.source.value) && AllSourced(tail)
    requires forall m :: m in tail ==> m.source.Some? && SameOwner(e.source.value, m.source.value)
    ensures AllSourced([n] + tail) && Newer(e, n).source.Some?
    ensures (if tail == [] then Newer(e, n) else Newer(Newer(e, n), Newest(tail))) == Newer(e, Newest([n] + tail))
  {
    assert ([n] + tail)[1..] == tail;
  }

  lemma NewestOwned(notices: seq<Warning>, owner: Source)
    requires notices != [] && AllSourced(notices)
    requires forall n :: n in notices ==> n.source.Some? && SameOwner(owner, n.source.value)
    ensures SameOwner(owner, Newest(notices).source.value)
  {
  }

  lemma {:induction false} SameOwned(about: seq<Warning>, a: Source, b: Source)
    requires SameOwner(a, b)
    ensures Owned(about, a) == Owned(about, b)
  {
    if about != [] { SameOwned(about[1..], a, b); }
  }

  /** From nothing, the first notice's owner and its newest notice are kept. */
  lemma FollowFromNothing(about: seq<Warning>)
    requires AllSourced(about) && about != []
    ensures Follow(None, about) == Some(KeptOf(about))
  {
    var rest := about[1..];
    assert forall k :: 0 <= k < |rest| ==> rest[k] == about[k + 1];
    FollowIsNewest(about[0], rest);
    var owner := about[0].source.value;
    OwnedSourced(rest, owner);
    var tail := Owned(rest, owner);
    assert Owned(about, owner) == [about[0]] + tail && ([about[0]] + tail)[1..] == tail;
    if tail != [] { NewestOwned(tail, owner); }
  }

  /** Nobody of these notices is newer than the newest. */
  lemma {:induction false} NewestIsNewest(notices: seq<Warning>, k: nat)
    requires AllSourced(notices) && k < |notices|
    ensures notices[k].source.value.observed <= Newest(notices).source.value.observed
  {
    if |notices| > 1 {
      assert forall j :: 0 <= j < |notices[1..]| ==> notices[1..][j] == notices[j + 1];
      NewestIsNewest(notices[1..], if k == 0 then 0 else k - 1);
    }
  }

  /** The condition is exact for one session. */
  lemma AgreesExactly(a: seq<Warning>, b: seq<Warning>)
    requires AllSourced(a) && AllSourced(b)
    ensures var entry := Follow(None, a);
            Follow(entry, if b == [] then [] else [KeptOf(b)]) == Follow(entry, b) <==> AgreesAt(a, b)
  {
    hide Newer;
    if b != [] {
      FollowFromNothing(b);
      if a == [] {
        FollowOne(None, KeptOf(b));
      } else {
        FollowFromNothing(a);
        BothAgree(a, b);
      }
    }
  }

  lemma FollowOne(entry: Option<Warning>, n: Warning)
    requires n.source.Some? && (entry.Some? ==> entry.value.source.Some?)
    ensures Follow(entry, [n]) == Some(if entry.Some? then Newer(entry.value, n) else n)
  {
    assert [n][1..] == [];
  }

  lemma KeptOwner(about: seq<Warning>)
    requires about != [] && AllSourced(about)
    ensures SameOwner(about[0].source.value, KeptOf(about).source.value)
  {
    OwnedSourced(about, about[0].source.value);
    NewestOwned(Owned(about, about[0].source.value), about[0].source.value);
  }

  lemma BothAgree(a: seq<Warning>, b: seq<Warning>)
    requires AllSourced(a) && AllSourced(b) && a != [] && b != []
    ensures Follow(Some(KeptOf(a)), [KeptOf(b)]) == Follow(Some(KeptOf(a)), b) <==> AgreesAt(a, b)
  {
    hide Newest, Owned, KeptOf, Follow;
    var k, l := KeptOf(a), KeptOf(b);
    KeptOwner(a);
    KeptOwner(b);
    FollowOne(Some(k), l);
    FollowIsNewest(k, b);
    SameOwned(b, a[0].source.value, k.source.value);
    var more := Owned(b, k.source.value);
    OwnedSourced(b, k.source.value);
    if SameOwner(a[0].source.value, b[0].source.value) {
      SameOwned(b, b[0].source.value, k.source.value);
      KeptIs(b);
    } else if more != [] {
      NewestOwned(more, k.source.value);
      Older(more, k.source.value.observed);
    }
  }

  lemma KeptIs(about: seq<Warning>)
    requires about != [] && AllSourced(about)
    ensures AllSourced(Owned(about, about[0].source.value)) && Owned(about, about[0].source.value) != []
    ensures KeptOf(about) == Newest(Owned(about, about[0].source.value))
  {
    OwnedSourced(about, about[0].source.value);
  }

  lemma Older(notices: seq<Warning>, observed: int)
    requires AllSourced(notices) && notices != []
    ensures (forall k :: 0 <= k < |notices| ==> notices[k].source.value.observed < observed)
       <==> Newest(notices).source.value.observed < observed
  {
    hide Newest;
    forall k | 0 <= k < |notices|
      ensures notices[k].source.value.observed <= Newest(notices).source.value.observed
    {
      NewestIsNewest(notices, k);
    }
  }

  lemma {:induction false} AboutSourced(notices: seq<Warning>, session: string, dismissed: set<string>)
    ensures AllSourced(About(notices, session, dismissed))
  {
    if notices != [] { AboutSourced(notices[1..], session, dismissed); }
  }

  /** Where a read of `saved` may come after the merge of `later`. */
  ghost predicate Agrees(saved: seq<Warning>, later: seq<Warning>, dismissed: set<string>) {
    forall s: string ::
      AboutSourced(saved, s, dismissed);
      AboutSourced(later, s, dismissed);
      AgreesAt(About(saved, s, dismissed), About(later, s, dismissed))
  }

  function SessionsOf(result: seq<Warning>): seq<string> {
    if result == [] then []
    else (if result[0].source.Some? then [result[0].source.value.session] else []) + SessionsOf(result[1..])
  }

  function ValidSessions(notices: seq<Warning>, dismissed: set<string>): seq<string> {
    if notices == [] then []
    else
      (if Valid(notices[0], dismissed) then [notices[0].source.value.session] else [])
      + ValidSessions(notices[1..], dismissed)
  }

  function AddSession(sessions: seq<string>, s: string): seq<string> {
    if s in sessions then sessions else sessions + [s]
  }

  function AddAll(sessions: seq<string>, more: seq<string>): seq<string>
    decreases |more|
  {
    if more == [] then sessions else AddAll(AddSession(sessions, more[0]), more[1..])
  }

  lemma {:induction false} SessionsOfInsert(result: seq<Warning>, n: Warning)
    requires n.source.Some?
    ensures SessionsOf(Insert(result, n)) == AddSession(SessionsOf(result), n.source.value.session)
    decreases |result|
  {
    if result == [] {
      assert [n][1..] == [] && SessionsOf([]) == [];
      assert SessionsOf([n]) == [n.source.value.session] + SessionsOf([n][1..]);
    } else if Of(result[0], n.source.value.session) {
      assert ([Newer(result[0], n)] + result[1..])[1..] == result[1..];
    } else {
      SessionsOfInsert(result[1..], n);
      assert ([result[0]] + Insert(result[1..], n))[1..] == Insert(result[1..], n);
      var head := if result[0].source.Some? then [result[0].source.value.session] else [];
      var rest := SessionsOf(result[1..]);
      assert head + (rest + [n.source.value.session]) == head + rest + [n.source.value.session];
    }
  }

  /** The order of a merge is that in which sessions first occur. */
  lemma {:induction false} SessionsOfOnto(result: seq<Warning>, notices: seq<Warning>, dismissed: set<string>)
    ensures SessionsOf(Onto(result, notices, dismissed))
         == AddAll(SessionsOf(result), ValidSessions(notices, dismissed))
    decreases |notices|
  {
    hide Valid, Insert, AddSession;
    if notices != [] {
      var n := notices[0];
      if Valid(n, dismissed) {
        ValidHasSource(n, dismissed);
        SessionsOfInsert(result, n);
        var rest := ValidSessions(notices[1..], dismissed);
        var all := [n.source.value.session] + rest;
        assert ValidSessions(notices, dismissed) == all && all[1..] == rest && all[0] == n.source.value.session;
      } else {
        assert ValidSessions(notices, dismissed) == ValidSessions(notices[1..], dismissed);
      }
      SessionsOfOnto(MergeOne(result, n, dismissed), notices[1..], dismissed);
    }
  }

  lemma {:induction false} AddedStay(sessions: seq<string>, more: seq<string>, s: string)
    ensures s in AddAll(sessions, more) <==> s in sessions || s in more
    decreases |more|
  {
    if more != [] {
      AddedStay(AddSession(sessions, more[0]), more[1..], s);
      assert more == [more[0]] + more[1..];
    }
  }

  lemma {:induction false} AddLast(sessions: seq<string>, more: seq<string>, s: string)
    ensures AddAll(sessions, more + [s]) == AddSession(AddAll(sessions, more), s)
    decreases |more|
  {
    if more == [] {
      assert [] + [s] == [s] && [s][1..] == [];
    } else {
      assert (more + [s])[1..] == more[1..] + [s];
      AddLast(AddSession(sessions, more[0]), more[1..], s);
    }
  }

  /** Sessions that were put in order before need no other order. */
  lemma {:induction false} AddAbsorbs(sessions: seq<string>, some: seq<string>, more: seq<string>)
    ensures AddAll(sessions, AddAll(some, more)) == AddAll(AddAll(sessions, some), more)
    decreases |more|
  {
    if more != [] {
      AddAbsorbs(sessions, AddSession(some, more[0]), more[1..]);
      AddedStay(sessions, some, more[0]);
      AddLast(sessions, some, more[0]);
      assert AddAll(sessions, AddSession(some, more[0])) == AddSession(AddAll(sessions, some), more[0]);
    }
  }

  lemma {:induction false} EntryHasSource(result: seq<Warning>, session: string)
    ensures Entry(result, session).Some? ==> Entry(result, session).value.source.Some?
    decreases |result|
  {
    if result != [] { EntryHasSource(result[1..], session); }
  }

  lemma {:induction false} EntryFollows(result: seq<Warning>, notices: seq<Warning>, session: string,
      dismissed: set<string>)
    ensures AllSourced(About(notices, session, dismissed))
    ensures Entry(result, session).Some? ==> Entry(result, session).value.source.Some?
    ensures Entry(Onto(result, notices, dismissed), session)
         == Follow(Entry(result, session), About(notices, session, dismissed))
    decreases |notices|
  {
    hide Valid, Insert, Entry, Of, Newer;
    AboutSourced(notices, session, dismissed);
    EntryHasSource(result, session);
    if notices != [] {
      var n := notices[0];
      var rest := About(notices[1..], session, dismissed);
      AboutSourced(notices[1..], session, dismissed);
      if Valid(n, dismissed) {
        ValidHasSource(n, dismissed);
        EntryOfInsert(result, n, session);
      }
      var mine := Valid(n, dismissed) && Of(n, session);
      assert About(notices, session, dismissed) == if mine then [n] + rest else rest;
      if mine { assert ([n] + rest)[1..] == rest && ([n] + rest)[0] == n; }
      EntryFollows(MergeOne(result, n, dismissed), notices[1..], session, dismissed);
    }
  }

  /** A merged list has at most one notice about a session. */
  lemma {:induction false} AboutOne(result: seq<Warning>, session: string, dismissed: set<string>)
    requires OneEach(result, dismissed)
    ensures About(result, session, dismissed)
         == if Entry(result, session).Some? then [Entry(result, session).value] else []
    decreases |result|
  {
    if result != [] {
      var rest := result[1..];
      assert forall k :: 0 <= k < |rest| ==> rest[k] == result[k + 1];
      AboutOne(rest, session, dismissed);
      if Of(result[0], session) { NoEntry(rest, session); }
    }
  }

  lemma {:induction false} NoEntry(result: seq<Warning>, session: string)
    requires forall k :: 0 <= k < |result| ==> !Of(result[k], session)
    ensures Entry(result, session).None?
    decreases |result|
  {
    if result != [] { NoEntry(result[1..], session); }
  }

  lemma {:induction false} ValidOfOneEach(result: seq<Warning>, dismissed: set<string>)
    requires OneEach(result, dismissed)
    ensures ValidSessions(result, dismissed) == SessionsOf(result)
  {
    if result != [] {
      assert forall k :: 0 <= k < |result[1..]| ==> result[1..][k] == result[k + 1];
      ValidOfOneEach(result[1..], dismissed);
    }
  }

  lemma {:induction false} SessionsLength(result: seq<Warning>, dismissed: set<string>)
    requires OneEach(result, dismissed)
    ensures |SessionsOf(result)| == |result|
  {
    if result != [] {
      assert forall k :: 0 <= k < |result[1..]| ==> result[1..][k] == result[k + 1];
      SessionsLength(result[1..], dismissed);
    }
  }

  lemma {:induction false} SameResult(x: seq<Warning>, y: seq<Warning>, dismissed: set<string>)
    requires OneEach(x, dismissed) && OneEach(y, dismissed) && SessionsOf(x) == SessionsOf(y)
    requires forall s: string :: Entry(x, s) == Entry(y, s)
    ensures x == y
  {
    SessionsLength(x, dismissed);
    SessionsLength(y, dismissed);
    if x != [] {
      assert Valid(x[0], dismissed);
      var s := x[0].source.value.session;
      assert Valid(y[0], dismissed);
      assert SessionsOf(x)[0] == s && SessionsOf(y)[0] == y[0].source.value.session;
      assert Entry(x, s) == Some(x[0]) && Entry(y, s) == Some(y[0]);
      var v, w := x[1..], y[1..];
      assert forall k :: 0 <= k < |v| ==> v[k] == x[k + 1];
      assert forall k :: 0 <= k < |w| ==> w[k] == y[k + 1];
      assert SessionsOf(v) == SessionsOf(x)[1..] && SessionsOf(w) == SessionsOf(y)[1..];
      forall t: string
        ensures Entry(v, t) == Entry(w, t)
      {
        if t == s {
          NoEntry(v, s);
          NoEntry(w, s);
        } else {
          assert Entry(v, t) == Entry(x, t) && Entry(w, t) == Entry(y, t);
        }
      }
      SameResult(v, w, dismissed);
    }
  }

  lemma {:induction false} SkipsDismissed(result: seq<Warning>, notices: seq<Warning>, dismissed: set<string>)
    ensures Onto(result, Undismissed(notices, dismissed), dismissed) == Onto(result, notices, dismissed)
    decreases |notices|
  {
    if notices != [] {
      var n := notices[0];
      var rest := Undismissed(notices[1..], dismissed);
      SkipsDismissed(MergeOne(result, n, dismissed), notices[1..], dismissed);
      if n.source.Some? && n.source.value.session !in dismissed {
        assert ([n] + rest)[1..] == rest && Undismissed(notices, dismissed) == [n] + rest;
      } else {
        assert Undismissed(notices, dismissed) == rest;
      }
    }
  }

  /** Merging what was merged under fewer dismissals is merging what is merged under all of them. */
  lemma EarlyIsLate(result: seq<Warning>, later: seq<Warning>, early: set<string>, late: set<string>)
    requires early <= late
    ensures Onto(result, Merged(later, early), late) == Onto(result, Merged(later, late), late)
  {
    SkipsDismissed(result, Merged(later, early), late);
    OntoUndismissed([], later, early, late);
  }

  /** Both ways of merging keep the sessions in the same order. */
  lemma SameOrder(saved: seq<Warning>, later: seq<Warning>, dismissed: set<string>)
    ensures SessionsOf(Onto(Merged(saved, dismissed), Merged(later, dismissed), dismissed))
         == SessionsOf(Onto(Merged(saved, dismissed), later, dismissed))
  {
    var base, merged := Merged(saved, dismissed), Merged(later, dismissed);
    SessionsOfOnto(base, merged, dismissed);
    SessionsOfOnto(base, later, dismissed);
    SessionsOfOnto([], later, dismissed);
    MergedIsOneEach(later, dismissed);
    ValidOfOneEach(merged, dismissed);
    AddAbsorbs(SessionsOf(base), [], ValidSessions(later, dismissed));
  }

  /** For one session the two ways agree just under the condition. */
  lemma EntriesAgree(saved: seq<Warning>, later: seq<Warning>, dismissed: set<string>, s: string)
    ensures AllSourced(About(saved, s, dismissed)) && AllSourced(About(later, s, dismissed))
    ensures Entry(Onto(Merged(saved, dismissed), Merged(later, dismissed), dismissed), s)
            == Entry(Onto(Merged(saved, dismissed), later, dismissed), s)
       <==> AgreesAt(About(saved, s, dismissed), About(later, s, dismissed))
  {
    hide AgreesAt, KeptOf;
    var base, merged := Merged(saved, dismissed), Merged(later, dismissed);
    var a, b := About(saved, s, dismissed), About(later, s, dismissed);
    EntryFollows([], saved, s, dismissed);
    EntryFollows([], later, s, dismissed);
    EntryFollows(base, merged, s, dismissed);
    EntryFollows(base, later, s, dismissed);
    MergedIsOneEach(later, dismissed);
    AboutOne(merged, s, dismissed);
    if b != [] { FollowFromNothing(b); }
    AgreesExactly(a, b);
  }

  /** Reading `saved` below what was merged is merging at once if and only if the two agree at every session. */
  lemma LateReadAgrees(saved: seq<Warning>, later: seq<Warning>, early: set<string>, late: set<string>)
    requires early <= late
    ensures Merged(saved + Merged(later, early), late) == Merged(saved + later, late) <==> Agrees(saved, later, late)
  {
    hide Onto, AgreesAt, OneEach;
    var base := Merged(saved, late);
    var x, y := Onto(base, Merged(later, late), late), Onto(base, later, late);
    OntoJoin([], saved, Merged(later, early), late);
    OntoJoin([], saved, later, late);
    EarlyIsLate(base, later, early, late);
    forall s: string
      ensures AllSourced(About(saved, s, late)) && AllSourced(About(later, s, late))
      ensures Entry(x, s) == Entry(y, s) <==> AgreesAt(About(saved, s, late), About(later, s, late))
    {
      EntriesAgree(saved, later, late, s);
    }
    if Agrees(saved, later, late) {
      SameOrder(saved, later, late);
      MergedIsOneEach(saved, late);
      OntoKeeps(base, Merged(later, late), late);
      OntoKeeps(base, later, late);
      SameResult(x, y, late);
    }
  }

  /** All notices of a run: observed ones are added behind those there are, and ones read from disk before them. */
  function AllNotices(start: seq<Warning>, events: seq<Event>): seq<Warning> {
    if events == [] then start
    else
      var before := AllNotices(start, events[..|events| - 1]);
      match events[|events| - 1]
      case Observes(observations) => before + observations
      case Dismisses => before
      case Restores(saved) => saved.warnings + before
  }

  /** What is read agrees with everything before it, whenever something is read. */
  ghost predicate RunAgrees(p: Notices, events: seq<Event>) {
    events == []
    || (var before, last := events[..|events| - 1], events[|events| - 1];
        && RunAgrees(p, before)
        && (last.Restores? ==>
              Agrees(last.saved.warnings, AllNotices(p.warnings, before),
                     last.saved.dismissed + Run(p, before).dismissed)))
  }

  /** In any run whose reads agree, the warnings are one merge of all notices, without what has been dismissed. */
  lemma {:induction false} RunIsOneMerge(p: Notices, events: seq<Event>)
    requires OneEach(p.warnings, p.dismissed) && RunAgrees(p, events)
    ensures Run(p, events).warnings == Merged(AllNotices(p.warnings, events), Run(p, events).dismissed)
  {
    hide OneEach, Merged, Dismissed, Agrees;
    if events == [] {
      MergedAgain(p);
    } else {
      var before, last := events[..|events| - 1], events[|events| - 1];
      var q, all := Run(p, before), AllNotices(p.warnings, before);
      RunIsOneMerge(p, before);
      RunKeepsOneEach(p, before);
      match last {
        case Observes(observations) => StagesAreOne(all, observations, q.dismissed, q.dismissed);
        case Dismisses =>
          DismissIsMerge(q);
          StagesAreOne(all, [], q.dismissed, Dismissed(q).dismissed);
          assert q.warnings + [] == q.warnings && all + [] == all;
        case Restores(saved) => LateReadAgrees(saved.warnings, all, q.dismissed, saved.dismissed + q.dismissed);
      }
    }
  }

  /** A read keeps this if and only if it agrees. */
  lemma ReadIsOneMerge(p: Notices, events: seq<Event>, saved: Notices)
    requires OneEach(p.warnings, p.dismissed) && RunAgrees(p, events)
    ensures var q, all := Step(Run(p, events), Restores(saved)), AllNotices(p.warnings, events);
            q.warnings == Merged(saved.warnings + all, q.dismissed) <==> Agrees(saved.warnings, all, q.dismissed)
  {
    hide OneEach, Merged, Agrees, Run, RunAgrees, AllNotices;
    RunIsOneMerge(p, events);
    var q := Run(p, events);
    LateReadAgrees(saved.warnings, AllNotices(p.warnings, events), q.dismissed, saved.dismissed + q.dismissed);
  }

  /** And a read that does not agree: another owner's warning and a newer one of the saved owner are observed before the
      saved one is read, and the newer one is lost. */
  lemma LateReadRun(saved: Warning, other: Warning, newer: Warning)
    requires Valid(saved, {}) && Valid(other, {}) && Valid(newer, {}) && saved != newer
    requires Of(other, saved.source.value.session) && Of(newer, saved.source.value.session)
    requires SameOwner(saved.source.value, newer.source.value) && !SameOwner(saved.source.value, other.source.value)
    requires saved.source.value.observed <= newer.source.value.observed
    ensures var start := Notices([], {});
            var read := Step(Step(Step(start, Observes([other])), Observes([newer])), Restores(Notices([saved], {})));
            read.warnings == [saved] && Merged([saved] + ([other] + [newer]), read.dismissed) == [newer]
    ensures !Agrees([saved], [other] + [newer], {})
  {
    LateStageDiffers(saved, other, newer);
    hide Valid, Merged, Agrees;
    StagesAreOne([other], [newer], {}, {});
    assert [] + [other] == [other] && [other] + [newer] == [other, newer];
    LateReadAgrees([saved], [other, newer], {}, {});
    assert [saved][0] != [newer][0];
    var none: set<string> := {};
    assert none + none == none;
  }
}
