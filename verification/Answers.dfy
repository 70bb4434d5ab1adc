/** Answers to a host's question: one goes out, and only its own outcome decides what is shown for it. */
module Answers {
  import opened Wrappers

  type Id = nat

  datatype Input = Input(id: Id, questions: seq<string>)

  /** A sent answer and the token of the attempt. */
  datatype Submission = Submission(input: Input, token: nat, submitted: bool)

  /** A `respondInput` call the model still awaits. */
  datatype Call = Call(epoch: nat, session: Id, token: nat)

  /** `published` is the cache of session states, `shown` the state of the open session. */
  datatype Model = Model(generation: nat, signedIn: bool, selected: Option<Id>, published: map<Id, Option<Input>>,
                         shown: Option<(Id, Option<Input>)>, submissions: map<Id, Submission>, calls: set<Call>,
                         nextToken: nat)

  predicate CanAnswer(m: Model, session: Id, input: Input, valid: bool) {
    && m.signedIn && m.selected == Some(session) && m.shown == Some((session, Some(input))) && valid
    && (session in m.submissions ==> m.submissions[session].input != input)
  }

  function Answered(m: Model, session: Id, input: Input, valid: bool): Model {
    if !CanAnswer(m, session, input, valid) then m
    else m.(submissions := m.submissions[session := Submission(input, m.nextToken, false)],
            calls := m.calls + {Call(m.generation, session, m.nextToken)},
            nextToken := m.nextToken + 1)
  }

  function Succeeded(m: Model, call: Call): Model {
    if call !in m.calls then m
    else
      var done := m.(calls := m.calls - {call});
      if call.epoch == m.generation && call.session in m.submissions && m.submissions[call.session].token == call.token
      then done.(submissions := m.submissions[call.session := m.submissions[call.session].(submitted := true)])
      else done
  }

  function Failed(m: Model, call: Call): Model {
    if call !in m.calls then m
    else
      var done := m.(calls := m.calls - {call});
      if call.epoch == m.generation && call.session in m.submissions && m.submissions[call.session].token == call.token
      then done.(submissions := m.submissions - {call.session})
      else done
  }

  /** The host publishes a session. */
  function Published(m: Model, session: Id, input: Option<Input>): Model {
    m.(published := m.published[session := input],
       submissions := if session in m.submissions && input != Some(m.submissions[session].input)
                      then m.submissions - {session} else m.submissions,
       shown := if m.selected == Some(session) then Some((session, input)) else m.shown)
  }

  /** The host publishes its workspace, with these sessions in it and the state of the sign-in. */
  function Listed(m: Model, sessions: set<Id>, signedIn: bool): Model {
    m.(signedIn := signedIn, submissions := map s | s in m.submissions && s in sessions :: m.submissions[s])
  }

  function Selected(m: Model, to: Option<Id>): Model {
    m.(selected := to,
       shown := if to.Some? && to.value in m.published then Some((to.value, m.published[to.value])) else None)
  }

  /** Old session states leave the cache. */
  function Trimmed(m: Model, gone: set<Id>): Model {
    m.(published := m.published - gone)
  }

  /** The workspace of a reset account is signed out until one is published. */
  function Reset(m: Model): Model {
    m.(generation := m.generation + 1, signedIn := false, selected := None, published := map[], shown := None,
       submissions := map[])
  }

  const EMPTY := Model(0, false, None, map[], None, map[], {}, 0)

  class AppModel {
    var generation: nat
    var signedIn: bool
    var selected: Option<Id>
    var sessions: map<Id, Option<Input>>
    var state: Option<(Id, Option<Input>)>
    var answerSubmissions: map<Id, Submission>
    var calls: set<Call>
    var nextToken: nat

    function Now(): Model
      reads this
    {
      Model(generation, signedIn, selected, sessions, state, answerSubmissions, calls, nextToken)
    }

    constructor ()
      ensures Now() == EMPTY
    {
      generation, signedIn, selected, sessions, state := 0, false, None, map[], None;
      answerSubmissions, calls, nextToken := map[], {}, 0;
    }

    method BeginAnswer(session: Id, input: Input, valid: bool)
      modifies this
      ensures Now() == Answered(old(Now()), session, input, valid)
    {
      if !signedIn || selected != Some(session) || state != Some((session, Some(input))) || !valid { return; }
      if session in answerSubmissions && answerSubmissions[session].input == input { return; }
      var token := nextToken;
      nextToken := nextToken + 1;
      answerSubmissions := answerSubmissions[session := Submission(input, token, false)];
      calls := calls + {Call(generation, session, token)};
    }

    method AnswerReturned(call: Call)
      requires call in calls
      modifies this
      ensures Now() == Succeeded(old(Now()), call)
    {
      calls := calls - {call};
      if call.epoch != generation { return; }
      if call.session in answerSubmissions && answerSubmissions[call.session].token == call.token {
        answerSubmissions := answerSubmissions[call.session := answerSubmissions[call.session].(submitted := true)];
      }
    }

    method AnswerThrew(call: Call)
      requires call in calls
      modifies this
      ensures Now() == Failed(old(Now()), call)
    {
      calls := calls - {call};
      if call.epoch != generation || call.session !in answerSubmissions
         || answerSubmissions[call.session].token != call.token { return; }
      answerSubmissions := answerSubmissions - {call.session};
    }

    method ReceiveSession(session: Id, input: Option<Input>)
      modifies this
      ensures Now() == Published(old(Now()), session, input)
    {
      sessions := sessions[session := input];
      if session in answerSubmissions && input != Some(answerSubmissions[session].input) {
        answerSubmissions := answerSubmissions - {session};
      }
      if selected == Some(session) { state := Some((session, input)); }
    }

    method ReceiveWorkspace(ids: set<Id>, signedIn: bool)
      modifies this
      ensures Now() == Listed(old(Now()), ids, signedIn)
    {
      this.signedIn := signedIn;
      answerSubmissions := map s | s in answerSubmissions && s in ids :: answerSubmissions[s];
    }

    method Select(to: Option<Id>)
      modifies this
      ensures Now() == Selected(old(Now()), to)
    {
      selected := to;
      state := if to.Some? && to.value in sessions then Some((to.value, sessions[to.value])) else None;
    }

    method ResetAccount()
      modifies this
      ensures Now() == Reset(old(Now()))
    {
      generation, signedIn := generation + 1, false;
      selected, sessions, state, answerSubmissions := None, map[], None, map[];
    }
  }

  datatype Event =
    | Answers(session: Id, input: Input, valid: bool)
    | Succeeds(call: Call)
    | Fails(call: Call)
    | Publishes(session: Id, published: Option<Input>)
    | Lists(sessions: set<Id>, signedIn: bool)
    | Selects(to: Option<Id>)
    | Trims(gone: set<Id>)
    | Resets

  function Step(m: Model, e: Event): Model {
    match e
    case Answers(session, input, valid) => Answered(m, session, input, valid)
    case Succeeds(call) => Succeeded(m, call)
    case Fails(call) => Failed(m, call)
    case Publishes(session, input) => Published(m, session, input)
    case Lists(sessions, signedIn) => Listed(m, sessions, signedIn)
    case Selects(to) => Selected(m, to)
    case Trims(gone) => Trimmed(m, gone)
    case Resets => Reset(m)
  }

  /** An answer that went out and may not go out again yet. */
  datatype Sent = Sent(session: Id, input: Input, token: nat)

  /** The answers of this generation whose call has not failed, whose session has not been published with another input
      and has not left the workspace; each session's input as last published; and the tokens of calls that succeeded. */
  datatype History = History(out: set<Sent>, last: map<Id, Option<Input>>, succeeded: set<nat>)

  function Recorded(m: Model, h: History, e: Event): History {
    match e
    case Answers(session, input, valid) =>
      if CanAnswer(m, session, input, valid) then h.(out := h.out + {Sent(session, input, m.nextToken)}) else h
    case Succeeds(call) =>
      if call in m.calls && call.epoch == m.generation then h.(succeeded := h.succeeded + {call.token}) else h
    case Fails(call) =>
      if call in m.calls && call.epoch == m.generation then h.(out := set a | a in h.out
          && a.token != call.token) else h
    case Publishes(session, input) =>
      h.(out := (set a | a in h.out && (a.session != session || input == Some(a.input))),
         last := h.last[session := input])
    case Lists(sessions, _) => h.(out := set a | a in h.out && a.session in sessions)
    case Resets => h.(out := {}, last := map[])
    case _ => h
  }

  /** What the model shows and caches is what was published last. */
  ghost predicate UpToDate(m: Model, h: History) {
    && (forall s :: s in m.published ==> s in h.last && m.published[s] == h.last[s])
    && (m.shown.Some? ==>
          && m.selected == Some(m.shown.value.0)
          && m.shown.value.0 in h.last && m.shown.value.1 == h.last[m.shown.value.0])
  }

  /** An answer that is out is the recorded one of its session, and the last published input is its question. */
  ghost predicate OnRecord(m: Model, h: History) {
    forall a :: a in h.out ==>
      && a.session in m.submissions
      && m.submissions[a.session].input == a.input && m.submissions[a.session].token == a.token
      && a.session in h.last && h.last[a.session] == Some(a.input)
  }

  /** An attempt counts as submitted exactly when its own call has succeeded. */
  ghost predicate Marked(submissions: map<Id, Submission>, succeeded: set<nat>) {
    forall s :: s in submissions ==> (submissions[s].submitted <==> submissions[s].token in succeeded)
  }

  /** Every attempt has its own token. */
  ghost predicate OwnTokens(submissions: map<Id, Submission>, next: nat) {
    && (forall s :: s in submissions ==> submissions[s].token < next)
    && (forall s, t :: s in submissions && t in submissions && s != t ==> submissions[s].token != submissions[t].token)
  }

  /** A call still awaited is that of one attempt, and has not succeeded. */
  ghost predicate OwnCalls(calls: set<Call>, submissions: map<Id, Submission>, succeeded: set<nat>, next: nat,
                           generation: nat) {
    && (forall c :: c in calls ==> c.token < next && c.epoch <= generation && c.token !in succeeded)
    && (forall c, s :: c in calls && s in submissions && submissions[s].token == c.token ==>
          s == c.session && c.epoch == generation)
    && (forall c, d :: c in calls && d in calls && c.token == d.token ==> c == d)
    && (forall t :: t in succeeded ==> t < next)
  }

  ghost predicate OwnOutcome(m: Model, h: History) {
    && Marked(m.submissions, h.succeeded) && OwnTokens(m.submissions, m.nextToken)
    && OwnCalls(m.calls, m.submissions, h.succeeded, m.nextToken, m.generation)
  }

  ghost predicate Inv(m: Model, h: History) {
    UpToDate(m, h) && OnRecord(m, h) && OwnOutcome(m, h)
  }

  lemma AnswerHolds(m: Model, h: History, session: Id, input: Input, valid: bool)
    requires Inv(m, h)
    ensures Inv(Step(m, Answers(session, input, valid)), Recorded(m, h, Answers(session, input, valid)))
    ensures CanAnswer(m, session, input, valid) ==> forall a :: a in h.out ==> a.session != session
  {
    var q, h' := Answered(m, session, input, valid), Recorded(m, h, Answers(session, input, valid));
    assert UpToDate(q, h');
    assert OnRecord(q, h');
    hide UpToDate, OnRecord;
    assert OwnOutcome(q, h');
  }

  lemma CallDone(calls: set<Call>, submissions: map<Id, Submission>, submissions': map<Id, Submission>,
      succeeded: set<nat>, next: nat, generation: nat, call: Call)
    requires OwnCalls(calls, submissions, succeeded, next, generation) && call in calls
    requires submissions'.Keys <= submissions.Keys
    requires forall s :: s in submissions' ==> submissions'[s].token == submissions[s].token
    ensures OwnCalls(calls - {call}, submissions', succeeded, next, generation)
    ensures OwnCalls(calls - {call}, submissions', succeeded + {call.token}, next, generation)
  {
  }

  lemma CallMarks(submissions: map<Id, Submission>, next: nat, succeeded: set<nat>, call: Call)
    requires Marked(submissions, succeeded) && OwnTokens(submissions, next)
    ensures var marked := call.session in submissions && submissions[call.session].token == call.token;
            var submissions' :=
              if marked then submissions[call.session := submissions[call.session].(submitted := true)]
              else submissions;
            (marked || forall s :: s in submissions ==> submissions[s].token != call.token) ==>
              Marked(submissions', succeeded + {call.token}) && OwnTokens(submissions', next)
  {
  }

  lemma SuccessMarks(m: Model, h: History, call: Call)
    requires OwnOutcome(m, h) && call in m.calls
    ensures OwnOutcome(Succeeded(m, call), Recorded(m, h, Succeeds(call)))
  {
    var q := Succeeded(m, call);
    CallDone(m.calls, m.submissions, q.submissions, h.succeeded, m.nextToken, m.generation, call);
    CallMarks(m.submissions, m.nextToken, h.succeeded, call);
    if call.epoch == m.generation {
      assert forall s :: s in m.submissions && m.submissions[s].token == call.token ==> s == call.session;
    }
    hide OwnCalls, OwnTokens, Marked;
  }

  lemma SuccessHolds(m: Model, h: History, call: Call)
    requires Inv(m, h)
    ensures Inv(Step(m, Succeeds(call)), Recorded(m, h, Succeeds(call)))
  {
    hide OwnOutcome;
    if call in m.calls { SuccessMarks(m, h, call); }
  }

  lemma FailureClears(m: Model, h: History, call: Call)
    requires OwnOutcome(m, h) && call in m.calls
    ensures OwnOutcome(Failed(m, call), Recorded(m, h, Fails(call)))
  {
    var q, h' := Failed(m, call), Recorded(m, h, Fails(call));
    assert h'.succeeded == h.succeeded;
    assert Marked(q.submissions, h'.succeeded) by { hide OwnTokens, OwnCalls; }
    assert OwnTokens(q.submissions, q.nextToken) by { hide OwnCalls, Marked; }
    assert OwnCalls(q.calls, q.submissions, h'.succeeded, q.nextToken, q.generation) by { hide OwnTokens, Marked; }
  }

  lemma FailureRecords(m: Model, h: History, call: Call)
    requires UpToDate(m, h) && OnRecord(m, h) && OwnTokens(m.submissions, m.nextToken) && call in m.calls
    ensures UpToDate(Failed(m, call), Recorded(m, h, Fails(call)))
            && OnRecord(Failed(m, call), Recorded(m, h, Fails(call)))
  {
  }

  lemma FailureHolds(m: Model, h: History, call: Call)
    requires Inv(m, h)
    ensures Inv(Step(m, Fails(call)), Recorded(m, h, Fails(call)))
  {
    if call in m.calls {
      FailureClears(m, h, call);
      FailureRecords(m, h, call);
    }
    hide OwnOutcome, UpToDate, OnRecord;
  }

  lemma PublishHolds(m: Model, h: History, session: Id, input: Option<Input>)
    requires Inv(m, h)
    ensures Inv(Step(m, Publishes(session, input)), Recorded(m, h, Publishes(session, input)))
  {
    var q, h' := Published(m, session, input), Recorded(m, h, Publishes(session, input));
    assert UpToDate(q, h') && OnRecord(q, h') by { hide OwnOutcome; }
    hide UpToDate, OnRecord;
    assert OwnOutcome(q, h');
  }

  lemma ListHolds(m: Model, h: History, sessions: set<Id>, signedIn: bool)
    requires Inv(m, h)
    ensures Inv(Step(m, Lists(sessions, signedIn)), Recorded(m, h, Lists(sessions, signedIn)))
  {
    var q, h' := Listed(m, sessions, signedIn), Recorded(m, h, Lists(sessions, signedIn));
    assert UpToDate(q, h') && OnRecord(q, h') by { hide OwnOutcome; }
    hide UpToDate, OnRecord;
    assert OwnOutcome(q, h');
  }

  lemma QuietHolds(m: Model, h: History, e: Event)
    requires Inv(m, h) && (e.Selects? || e.Trims? || e.Resets?)
    ensures Inv(Step(m, e), Recorded(m, h, e))
  {
    var q, h' := Step(m, e), Recorded(m, h, e);
    assert UpToDate(q, h') && OnRecord(q, h') by { hide OwnOutcome; }
    hide UpToDate, OnRecord;
    assert OwnOutcome(q, h');
  }

  lemma StepHolds(m: Model, h: History, e: Event)
    requires Inv(m, h)
    ensures Inv(Step(m, e), Recorded(m, h, e))
  {
    hide Inv, Step, Recorded;
    match e {
      case Answers(session, input, valid) => AnswerHolds(m, h, session, input, valid);
      case Succeeds(call) => SuccessHolds(m, h, call);
      case Fails(call) => FailureHolds(m, h, call);
      case Publishes(session, input) => PublishHolds(m, h, session, input);
      case Lists(sessions, signedIn) => ListHolds(m, h, sessions, signedIn);
      case _ => QuietHolds(m, h, e);
    }
  }

  function Run(events: seq<Event>): Model {
    if events == [] then EMPTY else Step(Run(events[..|events| - 1]), events[|events| - 1])
  }

  function RunHistory(events: seq<Event>): History {
    if events == [] then History({}, map[], {})
    else Recorded(Run(events[..|events| - 1]), RunHistory(events[..|events| - 1]), events[|events| - 1])
  }

  lemma {:induction false} RunHolds(events: seq<Event>)
    ensures Inv(Run(events), RunHistory(events))
  {
    hide Step, Recorded;
    if events != [] {
      RunHolds(events[..|events| - 1]);
      hide Inv;
      StepHolds(Run(events[..|events| - 1]), RunHistory(events[..|events| - 1]), events[|events| - 1]);
    }
  }

  /** Once: in any run, while an answer is out, nothing is sent for its session, neither it again nor another. */
  lemma AnswersOnce(events: seq<Event>, session: Id, input: Input, valid: bool)
    requires exists a :: a in RunHistory(events).out && a.session == session
    ensures Step(Run(events), Answers(session, input, valid)) == Run(events)
  {
    hide Run, RunHistory;
    RunHolds(events);
    AnswerHolds(Run(events), RunHistory(events), session, input, valid);
  }

  /** An answer counts as submitted exactly when the call of its own attempt has succeeded, in any run: outcomes of
      superseded attempts neither mark nor clear it. */
  lemma OwnOutcomeOnly(events: seq<Event>, session: Id)
    requires session in Run(events).submissions
    ensures var s := Run(events).submissions[session]; s.submitted <==> s.token in RunHistory(events).succeeded
  {
    hide Run, RunHistory;
    RunHolds(events);
  }

  /** What may end an answer that is out: the failure of its own call, another input of its session, a workspace without
      the session, or an account change. */
  predicate Ends(e: Event, a: Sent) {
    match e
    case Fails(call) => call.token == a.token
    case Publishes(session, input) => session == a.session && input != Some(a.input)
    case Lists(sessions, _) => a.session !in sessions
    case Resets => true
    case _ => false
  }

  lemma StepKeepsOut(m: Model, h: History, e: Event, a: Sent)
    requires Inv(m, h) && a in h.out && !Ends(e, a)
    ensures a in Recorded(m, h, e).out
    ensures a.session in m.submissions && a.session in Step(m, e).submissions
    ensures !(e.Succeeds? && e.call.token == a.token) ==>
              Step(m, e).submissions[a.session] == m.submissions[a.session]
  {
    assert OnRecord(m, h);
    match e {
      case Answers(session, input, valid) => AnswerHolds(m, h, session, input, valid);
      case _ =>
    }
    hide Inv, UpToDate, OwnOutcome;
  }

  /** An answer that is out stays out, with the same record, whatever else happens and comes back: outcomes of other
      attempts, superseded ones too, neither mark nor clear it. */
  lemma {:induction false} OutKeepsRecord(events: seq<Event>, more: seq<Event>, a: Sent)
    requires a in RunHistory(events).out && forall e :: e in more ==> !Ends(e, a)
    ensures a in RunHistory(events + more).out
    ensures a.session in Run(events).submissions && a.session in Run(events + more).submissions
    ensures var before, after := Run(events).submissions[a.session], Run(events + more).submissions[a.session];
            && before.token == a.token && after.input == before.input && after.token == before.token
            && ((forall e :: e in more ==> !(e.Succeeds? && e.call.token == a.token)) ==> after == before)
    decreases |more|
  {
    hide Step, Recorded, Ends, Run, RunHistory, Inv;
    RunRecords(events, a);
    if more == [] {
      assert events + more == events;
    } else {
      var rest, e := more[..|more| - 1], more[|more| - 1];
      assert e in more && forall x :: x in rest ==> x in more;
      OutKeepsRecord(events, rest, a);
      RunHolds(events + rest);
      StepKeepsOut(Run(events + rest), RunHistory(events + rest), e, a);
      RunGrows(events + rest, e);
      assert events + rest + [e] == events + more;
      RunRecords(events + more, a);
    }
  }

  lemma RunGrows(events: seq<Event>, e: Event)
    ensures Run(events + [e]) == Step(Run(events), e)
    ensures RunHistory(events + [e]) == Recorded(Run(events), RunHistory(events), e)
  {
    assert (events + [e])[..|events + [e]| - 1] == events;
  }

  lemma RunRecords(events: seq<Event>, a: Sent)
    requires a in RunHistory(events).out
    ensures a.session in Run(events).submissions
    ensures Run(events).submissions[a.session].token == a.token && Run(events).submissions[a.session].input == a.input
  {
    hide Run, RunHistory;
    RunHolds(events);
    assert OnRecord(Run(events), RunHistory(events));
  }
}
