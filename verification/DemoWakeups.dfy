/** Which steps leave a session with a message it could deliver at once: only a move of a free row to the front. */
module DemoWakeups {
  import opened Whitespace
  import opened Wrappers
  import opened DemoPeer
  import opened DemoIds
  import opened DemoAwake
  import opened DemoTasks
  import opened DemoLeases
  import opened DemoLedger
  import opened DemoRuns
  import opened DemoHandles

  /** The session rests, was not stopped, and its head is being edited; a free row is moved in front of it. */
  predicate FreesHead(p: Peer, e: Event, s: Id) {
    && e.Moves? && e.session == s && Move(p, s, e.row, e.delta).1.None?
    && s !in p.paused && !p.sessions[s].working && p.sessions[s].input.None?
    && p.sessions[s].queue[0].blocked && RowAt(p.sessions[s].queue, e.row).value + e.delta == 0
  }

  /** Looking at a queue leaves nothing to deliver in it, and other sessions alone. */
  lemma DrainSettles(p: Peer, t: Id, s: Id)
    ensures !Deliverable(Drain(p, t), t)
    ensures s != t ==> Deliverable(Drain(p, t), s) == Deliverable(p, s)
  {
  }

  lemma FinishSettles(p: Peer, t: Id, s: Id, interrupted: bool)
    requires !Deliverable(p, s) && (interrupted ==> t in p.paused)
    ensures !Deliverable(Finish(p, t, interrupted), s)
  {
    hide Settled, Drain;
    if t in p.sessions { DrainSettles(Halted(p, t), t, s); }
  }

  lemma SendSettles(p: Peer, t: Id, text: string, files: seq<Local>, mode: Mode, s: Id)
    requires !Deliverable(p, s)
    ensures !Deliverable(Send(p, t, text, files, mode), s)
  {
    hide Trim, Sent, Paths, Refusal;
    AcceptsHere(p, t, text, files, mode);
  }

  lemma AcceptsHere(p: Peer, t: Id, text: string, files: seq<Local>, mode: Mode)
    ensures Accepts(p, t, text, files, mode) ==> t in p.sessions
  {
  }

  lemma MoveSettles(p: Peer, t: Id, row: Id, delta: int, s: Id)
    requires !Deliverable(p, s)
    ensures Deliverable(Move(p, t, row, delta).0, s) <==> FreesHead(p, Moves(t, row, delta), s)
  {
    if Move(p, t, row, delta).1.None? && s == t {
      var queue := p.sessions[t].queue;
      var i := RowAt(queue, row).value;
      var rest := Without(queue, i);
      var moved := Inserted(rest, i + delta, queue[i]);
      assert Move(p, t, row, delta).0.sessions[t].queue == moved;
      if i + delta > 0 { assert moved[0] == rest[0] && (i > 0 ==> rest[0] == queue[0]); }
    }
  }

  lemma ResumeSettles(p: Peer, t: Id, s: Id)
    requires !Deliverable(p, s)
    ensures !Deliverable(Resume(p, t), s)
  {
    hide Finish;
    if t in p.running && t in p.sessions && p.running[t].Turn? {
      var job := p.running[t];
      var i := MessageAt(p.sessions[t].messages, job.reply);
      if i.Some? && job.word < |p.script.words| {
        var told := Told(p, t, i.value, job);
        assert !Deliverable(told, s);
        FinishSettles(told, t, s, false);
      }
    }
  }

  lemma CommitSettles(p: Peer, edit: Edit, text: Option<string>, s: Id)
    requires !Deliverable(p, s)
    ensures !Deliverable(FinishEdit(p, edit, text).0, s)
  {
    hide Drain, Trim;
    if FinishEdit(p, edit, text).1.None? { DrainSettles(Committed(p, edit, text), edit.session, s); }
  }

  lemma RestoreSettles(p: Peer, f: Fixtures, samples: Ledger, s: Id)
    requires Sample(f, samples, NextAbove(p, f))
    ensures !Deliverable(Restore(p, f), s)
  {
    hide Clean, StreamsOnly, Written, Honest, DemoLedger.Complete;
    if s in f.sessions { assert SampleSession(f, samples, NextAbove(p, f), s); }
  }

  lemma BeginSettles(p: Peer, t: Id, row: Id, s: Id)
    requires !Deliverable(p, s)
    ensures !Deliverable(Begin(p, t, row).0, s)
  {
  }

  lemma RetrySettles(p: Peer, t: Id, s: Id)
    requires !Deliverable(p, s)
    ensures !Deliverable(Retry(p, t).0, s)
  {
    hide Without;
  }

  lemma SendNowSettles(p: Peer, t: Id, row: Id, s: Id)
    requires !Deliverable(p, s)
    ensures !Deliverable(SendNow(p, t, row).0, s)
  {
    hide Without;
  }

  lemma RespondSettles(p: Peer, t: Id, request: Id, s: Id)
    requires !Deliverable(p, s)
    ensures !Deliverable(Respond(p, t, request).0, s)
  {
    hide Drain;
    if t in p.sessions { DrainSettles(Answered(p, t), t, s); }
  }

  lemma DeleteSettles(p: Peer, t: Id, row: Id, s: Id)
    requires !Deliverable(p, s)
    ensures !Deliverable(Delete(p, t, row).0, s)
  {
    hide Drain, Without;
    if Delete(p, t, row).1.None? { DrainSettles(Dequeued(p, t, RowAt(p.sessions[t].queue, row).value), t, s); }
  }

  lemma CloseSettles(p: Peer, t: Id, s: Id)
    requires !Deliverable(p, s)
    ensures !Deliverable(Close(p, t), s)
  {
    hide Drain, Released, RowsOf, LeasesOf;
    DrainSettles(Freed(p, t), t, s);
  }

  lemma QuietSettles(p: Peer, e: Event, s: Id)
    requires !Deliverable(p, s) && (e.SignedOut? || e.Renews? || e.Creates? || e.Foregrounds? || e.Passes?)
    ensures !Deliverable(Step(p, e), s)
  {
  }

  /** The exact theorem about wakeups: a step leaves a message behind that could be delivered at once, where none was
      before, if and only if it moves a free row in front of one being edited, in a session at rest. */
  lemma StepDelivers(p: Peer, e: Event, s: Id)
    requires Allowed(p, e) && !Deliverable(p, s)
    ensures Deliverable(Step(p, e), s) <==> FreesHead(p, e, s)
  {
    hide Sample, Deliverable, Restore, Send, Finish, Retry, Respond, SendNow, Move, Delete, Begin, Renew, FinishEdit,
         Close, Create, Foreground, Resume, Stopped;
    match e {
      case Restored(fixtures, samples) => RestoreSettles(p, fixtures, samples, s);
      case Sends(t, text, files, mode) => SendSettles(p, t, text, files, mode, s);
      case Interrupts(t) => InterruptSettles(p, t, s);
      case Retries(t) => RetrySettles(p, t, s);
      case Responds(t, request) => RespondSettles(p, t, request, s);
      case SendsNow(t, row) => SendNowSettles(p, t, row, s);
      case Moves(t, row, delta) => MoveSettles(p, t, row, delta, s);
      case Deletes(t, row) => DeleteSettles(p, t, row, s);
      case Begins(t, row) => BeginSettles(p, t, row, s);
      case Finishes(edit, text) => CommitSettles(p, edit, text, s);
      case Closes(t) => CloseSettles(p, t, s);
      case Resumes(t) => ResumeSettles(p, t, s);
      case _ => QuietSettles(p, e, s);
    }
  }

  lemma InterruptSettles(p: Peer, t: Id, s: Id)
    requires !Deliverable(p, s)
    ensures !Deliverable(Interrupt(p, t), s)
  {
    FinishSettles(Stopped(p, t), t, s, true);
  }

  /** No step of a run is such a move in this session. */
  predicate NeverFrees(p: Peer, events: seq<Event>, s: Id) {
    events == [] || (NeverFrees(p, events[..|events| - 1], s)
                     && !FreesHead(Run(p, events[..|events| - 1]), events[|events| - 1], s))
  }

  /** Over whole runs: as long as no such move is made, no message waits that could be delivered. */
  lemma {:induction false} RunDelivers(p: Peer, events: seq<Event>, s: Id)
    requires RunAllowed(p, events) && !Deliverable(p, s) && NeverFrees(p, events, s)
    ensures !Deliverable(Run(p, events), s)
  {
    hide Deliverable, Step, Allowed, FreesHead;
    if events != [] {
      RunDelivers(p, events[..|events| - 1], s);
      StepDelivers(Run(p, events[..|events| - 1]), events[|events| - 1], s);
    }
  }

  /** The new session of a peer whose replies have one word: its turn is running and two rows wait. */
  lemma TurnRuns(p: Peer, q: Peer, sent: Ledger, s: Id, queue: seq<Row>)
    requires Inv(q, sent) && Working(p, q, s, queue) && PROGRESS < s && |q.script.words| == 1
    ensures s in q.running && q.running[s].Turn? && q.running[s].word == 0
    ensures MessageAt(q.sessions[s].messages, q.running[s].reply).Some?
  {
    hide Ids, Leases, Kept, Awake, StreamsOnly;
    assert TaskAt(q, s);
    hide Tasks, TaskAt;
  }

  /** The first row is taken for editing, and the turn ends. */
  lemma RestsBlocked(q: Peer, s: Id, a: Row, b: Row)
    requires q.active && s in q.sessions && s !in q.paused && q.sessions[s].input.None? && q.sessions[s].queue == [a, b]
    requires s in q.running && q.running[s].Turn? && q.running[s].word == 0 && |q.script.words| == 1
    requires MessageAt(q.sessions[s].messages, q.running[s].reply).Some? && !Leased(q, s, a.id)
    ensures var r := Resume(Begin(q, s, a.id).0, s);
            && r.active && s in r.sessions && s !in r.paused && r.sessions[s].input.None? && !r.sessions[s].working
            && r.sessions[s].queue == [a.(blocked := true), b]
  {
    assert RowAt([a, b], a.id) == Some(0);
    assert [a, b][0 := a.(blocked := true)] == [a.(blocked := true), b];
  }

  lemma MovesInFront(r: Peer, s: Id, a: Row, b: Row)
    requires r.active && s in r.sessions && s !in r.paused && r.sessions[s].input.None? && !r.sessions[s].working
    requires r.sessions[s].queue == [a, b] && a.blocked && !b.blocked && !b.pending && a.id != b.id
    ensures FreesHead(r, Moves(s, b.id, -1), s)
  {
    assert RowAt([a, b][1..], b.id) == Some(0);
    assert RowAt([a, b], b.id) == Some(1);
  }

  lemma Stalls(q: Peer, s: Id, a: Row, b: Row)
    requires q.active && s in q.sessions && s !in q.paused && q.sessions[s].input.None? && q.sessions[s].queue == [a, b]
    requires s in q.running && q.running[s].Turn? && q.running[s].word == 0 && |q.script.words| == 1
    requires MessageAt(q.sessions[s].messages, q.running[s].reply).Some? && !Leased(q, s, a.id)
    requires !b.blocked && !b.pending && a.id != b.id
    ensures Deliverable(Move(Resume(Begin(q, s, a.id).0, s), s, b.id, -1).0, s)
  {
    hide Deliverable, FreesHead, Resume, Begin, Move, Leased, MessageAt;
    RestsBlocked(q, s, a, b);
    var r := Resume(Begin(q, s, a.id).0, s);
    MovesInFront(r, s, a.(blocked := true), b);
    AtRestIsSettled(r, s);
    MoveSettles(r, s, b.id, -1, s);
  }

  /** The run below: the first row is taken for editing, the turn ends, and the second row is moved up. */
  function Stalling(before: seq<Event>, s: Id, a: Id, b: Id): seq<Event> {
    before + [Begins(s, a)] + [Resumes(s)] + [Moves(s, b, -1)]
  }

  lemma StallingRun(p: Peer, before: seq<Event>, s: Id, a: Id, b: Id)
    requires RunAllowed(p, before)
    ensures RunAllowed(p, Stalling(before, s, a, b))
    ensures Run(p, Stalling(before, s, a, b)) == Move(Resume(Begin(Run(p, before), s, a).0, s), s, b, -1).0
  {
    hide Run, RunAllowed, Resume, Begin, Move;
    var q := Run(p, before);
    var begun := Begin(q, s, a).0;
    assert Step(q, Begins(s, a)) == begun && Allowed(q, Begins(s, a));
    assert Step(begun, Resumes(s)) == Resume(begun, s) && Allowed(begun, Resumes(s));
    assert Allowed(Resume(begun, s), Moves(s, b, -1));
    assert Step(Resume(begun, s), Moves(s, b, -1)) == Move(Resume(begun, s), s, b, -1).0;
    hide Step, Allowed;
    RunGrows(p, before, Begins(s, a));
    RunGrows(p, before + [Begins(s, a)], Resumes(s));
    RunGrows(p, before + [Begins(s, a)] + [Resumes(s)], Moves(s, b, -1));
  }

  /** And such a move can be made in every active peer with one-word replies: two rows wait behind a turn, the first is
      taken for editing, the turn ends, and the second is moved up. It could be delivered and is not. */
  lemma MoveCanStall(p: Peer, sent: Ledger, text: string)
    requires Inv(p, sent) && p.active && Trim(text) != "" && |p.script.words| == 1
    ensures exists a: Id, b: Id ::
              var events := Stalling(TwoWaiting(p, text), p.nextID, a, b);
              RunAllowed(p, events) && Deliverable(Run(p, events), p.nextID)
  {
    var before, s := TwoWaiting(p, text), p.nextID;
    assert PROGRESS < s;
    WaitingRun(p, text);
    Waits(p, text);
    RunHolds(p, sent, before);
    var q := Run(p, before);
    hide Trim, TwoWaiting, Run, RunAllowed, RunLedger, Deliverable, Resume, Begin, Move, Stalling, Inv, Leased,
         MessageAt;
    var x: Id, y: Id :| p.nextID <= x < y && Working(p, q, s,
      [Row(x, Trim(text), [], false, false), Row(y, Trim(text), [], false, false)]);
    var a, b := Row(x, Trim(text), [], false, false), Row(y, Trim(text), [], false, false);
    TurnRuns(p, q, RunLedger(p, sent, before), s, [a, b]);
    NewIsFree(p, sent, q, s, x);
    Stalls(q, s, a, b);
    StallingRun(p, before, s, x, y);
  }

  lemma NewIsFree(p: Peer, sent: Ledger, q: Peer, s: Id, row: Id)
    requires Inv(p, sent) && q.edits == p.edits && p.nextID <= row
    ensures !Leased(q, s, row)
  {
    assert Register(p.edits, p.clock, p.nextID);
  }

  lemma AtRestIsSettled(r: Peer, s: Id)
    requires s in r.sessions && r.sessions[s].queue != [] && r.sessions[s].queue[0].blocked
    ensures !Deliverable(r, s)
  {
  }
}
