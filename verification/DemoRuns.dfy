/** Whole runs of the demo peer: any calls, task steps and passing of time, in any order. */
module DemoRuns {
  import opened Whitespace
  import opened Wrappers
  import opened DemoPeer
  import opened DemoIds
  import opened DemoAwake
  import opened DemoTasks
  import opened DemoLeases
  import opened DemoLedger

  datatype Event =
    | Restored(fixtures: Fixtures, samples: Ledger)
    | SignedOut
    | Sends(session: Id, text: string, files: seq<Local>, mode: Mode)
    | Interrupts(session: Id)
    | Retries(session: Id)
    | Responds(session: Id, request: Id)
    | SendsNow(session: Id, row: Id)
    | Moves(session: Id, row: Id, delta: int)
    | Deletes(session: Id, row: Id)
    | Begins(session: Id, row: Id)
    | Renews(edit: Edit)
    | Finishes(edit: Edit, newText: Option<string>)
    | Closes(session: Id)
    | Creates(accepted: bool)
    | Foregrounds(foreground: bool)
    | Resumes(session: Id)
    | Passes(milliseconds: nat)

  function Step(p: Peer, e: Event): Peer {
    match e
    case Restored(fixtures, _) => Restore(p, fixtures)
    case SignedOut => Cleared(p)
    case Sends(s, text, files, mode) => Send(p, s, text, files, mode)
    case Interrupts(s) => Interrupt(p, s)
    case Retries(s) => Retry(p, s).0
    case Responds(s, request) => Respond(p, s, request).0
    case SendsNow(s, row) => SendNow(p, s, row).0
    case Moves(s, row, delta) => Move(p, s, row, delta).0
    case Deletes(s, row) => Delete(p, s, row).0
    case Begins(s, row) => Begin(p, s, row).0
    case Renews(edit) => Renew(p, edit).0
    case Finishes(edit, text) => FinishEdit(p, edit, text).0
    case Closes(s) => Close(p, s)
    case Creates(accepted) => Create(p, accepted).0
    case Foregrounds(foreground) => Foreground(p, foreground)
    case Resumes(s) => Resume(p, s)
    case Passes(milliseconds) => p.(clock := p.clock + milliseconds)
  }

  /** Samples as the peer ships them, with identifiers below `next`: only the running one works, and no row is
      blocked. */
  ghost predicate SampleSession(f: Fixtures, samples: Ledger, next: Id, s: Id)
    requires s in f.sessions
  {
    var state := f.sessions[s];
    && s < next && Clean(state.queue, state.messages, next)
    && (state.working <==> s == RUNNING)
    && StreamsOnly(state.messages, if s == RUNNING then Some(PROGRESS) else None)
    && (s == RUNNING ==> Written(state.messages, PROGRESS, None))
    && (state.queue != [] ==> s == RUNNING)
    && (forall r :: r in state.queue ==> !r.blocked)
    && Honest(f.files, samples, s, state.queue, state.messages)
    && Complete(samples, s, state.queue, state.messages)
  }

  ghost predicate Sample(f: Fixtures, samples: Ledger, next: Id) {
    && (forall s :: s in f.sessions ==> SampleSession(f, samples, next, s))
    && forall id :: id in samples ==> id < next && samples[id].session in f.sessions
  }

  /** A commit comes with a handle the machine issued, and the samples are proper ones. */
  ghost predicate Allowed(p: Peer, e: Event) {
    match e
    case Restored(fixtures, samples) => Sample(fixtures, samples, NextAbove(p, fixtures))
    case Finishes(edit, _) => Issued(p, edit)
    case _ => true
  }

  /** What each event does to the ledger of messages sent: only these three kinds of calls touch it. */
  function Recorded(p: Peer, sent: Ledger, e: Event): Ledger {
    match e
    case Restored(_, samples) => samples
    case SignedOut => map[]
    case Sends(s, text, files, mode) =>
      if Accepts(p, s, text, files, mode) then sent[p.nextID := Entry(s, Trim(text), Sent(s, files))] else sent
    case Deletes(s, row) => if Delete(p, s, row).1.None? then sent - {row} else sent
    case Finishes(edit, text) => Edited(p, sent, edit, text)
    case _ => sent
  }

  ghost predicate Inv(p: Peer, sent: Ledger) {
    Ids(p) && Tasks(p) && Leases(p) && Kept(p, sent) && Awake(p)
  }

  function Run(p: Peer, events: seq<Event>): Peer {
    if events == [] then p else Step(Run(p, events[..|events| - 1]), events[|events| - 1])
  }

  function RunLedger(p: Peer, sent: Ledger, events: seq<Event>): Ledger {
    if events == [] then sent
    else Recorded(Run(p, events[..|events| - 1]), RunLedger(p, sent, events[..|events| - 1]), events[|events| - 1])
  }

  ghost predicate RunAllowed(p: Peer, events: seq<Event>) {
    events == []
    || (RunAllowed(p, events[..|events| - 1]) && Allowed(Run(p, events[..|events| - 1]), events[|events| - 1]))
  }

  lemma ClearedHolds(p: Peer, sent: Ledger)
    requires Inv(p, sent)
    ensures Inv(Cleared(p), map[])
  {
  }

  lemma RestoredHolds(p: Peer, sent: Ledger, f: Fixtures, samples: Ledger)
    requires Inv(p, sent) && Sample(f, samples, NextAbove(p, f))
    ensures Inv(Restore(p, f), samples)
  {
    hide Clean, StreamsOnly, Written, Honest, Complete;
    var q := Restore(p, f);
    assert forall s :: s in f.sessions ==> SampleSession(f, samples, q.nextID, s);
    assert q.edits == map[] && q.sessions == f.sessions && q.files == f.files && q.nextID == NextAbove(p, f);
    assert Ids(q) && Kept(q, samples);
    assert Leases(q);
    assert Awake(q);
    forall s | s in q.sessions
      ensures TaskAt(q, s)
    {
    }
  }

  lemma StepIds(p: Peer, sent: Ledger, e: Event)
    requires Inv(p, sent) && Allowed(p, e)
    ensures Ids(Step(p, e))
  {
    hide Tasks, Leases, Kept, Awake,
         Send, Interrupt, Retry, Respond, SendNow, Move, Delete, Begin, FinishEdit, Close, Create, Resume;
    match e {
      case Restored(fixtures, samples) => RestoredHolds(p, sent, fixtures, samples);
      case SignedOut =>
      case Sends(s, text, files, mode) => SendIds(p, s, text, files, mode);
      case Interrupts(s) => InterruptIds(p, s);
      case Retries(s) => RetryIds(p, s);
      case Responds(s, request) => RespondIds(p, s, request);
      case SendsNow(s, row) => SendNowIds(p, s, row);
      case Moves(s, row, delta) => MoveIds(p, s, row, delta);
      case Deletes(s, row) => DeleteIds(p, s, row);
      case Begins(s, row) => BeginIds(p, s, row);
      case Renews(edit) =>
      case Finishes(edit, text) => FinishEditIds(p, edit, text);
      case Closes(s) => CloseIds(p, s);
      case Creates(accepted) => CreateIds(p, accepted);
      case Foregrounds(foreground) =>
      case Resumes(s) => ResumeIds(p, s);
      case Passes(milliseconds) =>
    }
  }

  lemma StepTasks(p: Peer, sent: Ledger, e: Event)
    requires Inv(p, sent) && Allowed(p, e)
    ensures Tasks(Step(p, e))
  {
    hide Leases, Kept, Awake, Ids, TaskAt,
         Send, Interrupt, Retry, Respond, SendNow, Move, Delete, Begin, FinishEdit, Close, Create, Resume, Foreground;
    match e {
      case Restored(fixtures, samples) => RestoredHolds(p, sent, fixtures, samples);
      case SignedOut =>
      case Sends(s, text, files, mode) => SendTasks(p, s, text, files, mode);
      case Interrupts(s) => InterruptTasks(p, s);
      case Retries(s) => RetryTasks(p, s);
      case Responds(s, request) => RespondTasks(p, s, request);
      case SendsNow(s, row) => SendNowTasks(p, s, row);
      case Moves(s, row, delta) => MoveTasks(p, s, row, delta);
      case Deletes(s, row) => DeleteTasks(p, s, row);
      case Begins(s, row) => BeginTasks(p, s, row);
      case Renews(edit) => SameTasks(p, Step(p, e), edit.session);
      case Finishes(edit, text) => FinishEditTasks(p, edit, text);
      case Closes(s) => CloseTasks(p, s);
      case Creates(accepted) => CreateTasks(p, accepted);
      case Foregrounds(foreground) => ForegroundTasks(p, foreground);
      case Resumes(s) => ResumeTasks(p, s);
      case Passes(milliseconds) => SameTasks(p, Step(p, e), RUNNING);
    }
  }

  lemma StepLeases(p: Peer, sent: Ledger, e: Event)
    requires Inv(p, sent) && Allowed(p, e)
    ensures Leases(Step(p, e))
  {
    hide Tasks, Kept, Awake, Ids, RowsLeased, Register,
         Send, Interrupt, Retry, Respond, SendNow, Move, Delete, Begin, FinishEdit, Close, Create, Resume;
    match e {
      case Restored(fixtures, samples) => RestoredHolds(p, sent, fixtures, samples);
      case SignedOut => ClearedHolds(p, sent);
      case Sends(s, text, files, mode) => SendLeases(p, s, text, files, mode);
      case Interrupts(s) => InterruptShrinks(p, s); ShrinksKeeps(p, Step(p, e));
      case Retries(s) => RetryShrinks(p, s); ShrinksKeeps(p, Step(p, e));
      case Responds(s, request) => RespondShrinks(p, s, request); ShrinksKeeps(p, Step(p, e));
      case SendsNow(s, row) => SendNowShrinks(p, s, row); ShrinksKeeps(p, Step(p, e));
      case Moves(s, row, delta) => MoveShrinks(p, s, row, delta); ShrinksKeeps(p, Step(p, e));
      case Deletes(s, row) => DeleteShrinks(p, s, row); ShrinksKeeps(p, Step(p, e));
      case Begins(s, row) => BeginLeases(p, s, row);
      case Renews(edit) => RenewLeases(p, edit);
      case Finishes(edit, text) => FinishEditLeases(p, edit, text);
      case Closes(s) => CloseLeases(p, s);
      case Creates(accepted) => CreateLeases(p, accepted);
      case Foregrounds(foreground) => ShrinksKeeps(p, Step(p, e));
      case Resumes(s) => ResumeShrinks(p, s); ShrinksKeeps(p, Step(p, e));
      case Passes(milliseconds) => LaterLeases(p, p.clock + milliseconds);
    }
  }

  lemma StepAwake(p: Peer, sent: Ledger, e: Event)
    requires Inv(p, sent) && Allowed(p, e)
    ensures Awake(Step(p, e))
  {
    hide Tasks, Kept, Leases, Ids,
         Send, Interrupt, Retry, Respond, SendNow, Move, Delete, Begin, FinishEdit, Close, Create, Resume;
    match e {
      case Restored(fixtures, samples) => RestoredHolds(p, sent, fixtures, samples);
      case SignedOut =>
      case Sends(s, text, files, mode) => SendAwakes(p, s, text, files, mode);
      case Interrupts(s) => InterruptAwakes(p, s);
      case Retries(s) => RetryAwakes(p, s);
      case Responds(s, request) => RespondAwakes(p, s, request);
      case SendsNow(s, row) => SendNowAwakes(p, s, row);
      case Moves(s, row, delta) => MoveAwakes(p, s, row, delta);
      case Deletes(s, row) => DeleteAwakes(p, s, row);
      case Begins(s, row) => BeginAwakes(p, s, row);
      case Renews(edit) =>
      case Finishes(edit, text) => FinishEditAwakes(p, edit, text);
      case Closes(s) => CloseAwakes(p, s);
      case Creates(accepted) => CreateAwakes(p, accepted);
      case Foregrounds(foreground) =>
      case Resumes(s) => ResumeAwakes(p, s);
      case Passes(milliseconds) =>
    }
  }

  lemma StepKept(p: Peer, sent: Ledger, e: Event)
    requires Inv(p, sent) && Allowed(p, e)
    ensures Kept(Step(p, e), Recorded(p, sent, e))
  {
    hide Leases, Awake, Ids, Tasks, Honest, Complete,
         Send, Interrupt, Retry, Respond, SendNow, Move, Begin, Close, Create, Resume;
    match e {
      case Restored(fixtures, samples) => RestoredHolds(p, sent, fixtures, samples);
      case SignedOut =>
      case Sends(s, text, files, mode) => SendKept(p, sent, s, text, files, mode);
      case Interrupts(s) => InterruptKept(p, sent, s);
      case Retries(s) => RetryKept(p, sent, s);
      case Responds(s, request) => RespondKept(p, sent, s, request);
      case SendsNow(s, row) => SendNowKept(p, sent, s, row);
      case Moves(s, row, delta) => MoveKept(p, sent, s, row, delta);
      case Deletes(s, row) => DeleteKept(p, sent, s, row);
      case Begins(s, row) => BeginKept(p, sent, s, row);
      case Renews(edit) =>
      case Finishes(edit, text) => FinishEditKept(p, sent, edit, text);
      case Closes(s) => CloseKept(p, sent, s);
      case Creates(accepted) => CreateKept(p, sent, accepted);
      case Foregrounds(foreground) =>
      case Resumes(s) => ResumeKept(p, sent, s);
      case Passes(milliseconds) =>
    }
  }

  /** The main result: every step keeps everything. */
  lemma StepHolds(p: Peer, sent: Ledger, e: Event)
    requires Inv(p, sent) && Allowed(p, e)
    ensures Inv(Step(p, e), Recorded(p, sent, e))
  {
    hide Ids, Tasks, Leases, Kept, Awake, Step, Recorded, Allowed;
    StepIds(p, sent, e);
    StepTasks(p, sent, e);
    StepLeases(p, sent, e);
    StepKept(p, sent, e);
    StepAwake(p, sent, e);
  }

  /** And so does every run. */
  lemma {:induction false} RunHolds(p: Peer, sent: Ledger, events: seq<Event>)
    requires Inv(p, sent) && RunAllowed(p, events)
    ensures Inv(Run(p, events), RunLedger(p, sent, events))
  {
    hide Inv, Step, Recorded, Allowed;
    if events != [] {
      var before := events[..|events| - 1];
      RunHolds(p, sent, before);
      StepHolds(Run(p, before), RunLedger(p, sent, before), events[|events| - 1]);
    }
  }
}
