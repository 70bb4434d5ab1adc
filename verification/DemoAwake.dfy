/** No lost wakeup: a session with queued messages works, asks, is stopped, or has a row that is being edited. */
module DemoAwake {
  import opened Whitespace
  import opened Wrappers
  import opened DemoPeer

  ghost predicate SomeBlocked(queue: seq<Row>) {
    exists i :: 0 <= i < |queue| && queue[i].blocked
  }

  ghost predicate AwakeAt(p: Peer, session: Id)
    requires session in p.sessions
  {
    var state := p.sessions[session];
    state.queue == [] || state.working || state.input.Some? || session in p.paused || SomeBlocked(state.queue)
  }

  /** All but one session are as awake as before: those a step does not touch. */
  ghost predicate AwakeBut(p: Peer, session: Id) {
    forall s :: s in p.sessions && s != session ==> AwakeAt(p, s)
  }

  ghost predicate Awake(p: Peer) {
    (!p.active ==> p.sessions == map[]) && forall s :: s in p.sessions ==> AwakeAt(p, s)
  }

  lemma StartAwakes(p: Peer, session: Id, text: string, files: seq<Remote>, message: Id)
    requires AwakeBut(p, session) && p.active
    ensures Awake(StartTurn(p, session, text, files, message))
  {
  }

  /** Looking at the queue after a change is what makes a session awake again. */
  lemma DrainAwakes(p: Peer, session: Id)
    requires AwakeBut(p, session) && (!p.active ==> p.sessions == map[])
    ensures Awake(Drain(p, session))
  {
    if Deliverable(p, session) {
      var row := p.sessions[session].queue[0];
      StartAwakes(Dequeued(p, session, 0), session, row.text, Files(p.files, row.id), row.id);
    }
  }

  lemma FinishAwakes(p: Peer, session: Id, interrupted: bool)
    requires AwakeBut(p, session) && (!p.active ==> p.sessions == map[]) && (interrupted ==> session in p.paused)
    ensures Awake(Finish(p, session, interrupted))
  {
    hide Drain, Settled;
    if session in p.sessions && !interrupted { DrainAwakes(Halted(p, session), session); }
  }

  lemma InterruptAwakes(p: Peer, session: Id)
    requires Awake(p)
    ensures Awake(Interrupt(p, session))
  {
    hide Finish;
    FinishAwakes(Stopped(p, session), session, true);
  }

  lemma SendAwakes(p: Peer, session: Id, text: string, files: seq<Local>, mode: Mode)
    requires Awake(p)
    ensures Awake(Send(p, session, text, files, mode))
  {
    hide Sent, Trim;
  }

  lemma CreateAwakes(p: Peer, accepted: bool)
    requires Awake(p)
    ensures Awake(Create(p, accepted).0)
  {
  }

  lemma RetryAwakes(p: Peer, session: Id)
    requires Awake(p)
    ensures Awake(Retry(p, session).0)
  {
  }

  lemma RespondAwakes(p: Peer, session: Id, request: Id)
    requires Awake(p)
    ensures Awake(Respond(p, session, request).0)
  {
    hide Drain;
    if session in p.sessions && p.sessions[session].input == Some(request) {
      DrainAwakes(Answered(p, session), session);
    }
  }

  lemma SendNowAwakes(p: Peer, session: Id, id: Id)
    requires Awake(p)
    ensures Awake(SendNow(p, session, id).0)
  {
  }

  lemma MoveAwakes(p: Peer, session: Id, id: Id, delta: int)
    requires Awake(p)
    ensures Awake(Move(p, session, id, delta).0)
  {
    if Move(p, session, id, delta).1.None? {
      var queue := p.sessions[session].queue;
      var i := RowAt(queue, id).value;
      var moved := Inserted(Without(queue, i), i + delta, queue[i]);
      if j :| 0 <= j < |queue| && queue[j].blocked {
        var k := if j < i then j else j - 1;
        assert Without(queue, i)[k] == queue[j];
        assert moved[if k < i + delta then k else k + 1] == queue[j];
      }
    }
  }

  lemma DeleteAwakes(p: Peer, session: Id, id: Id)
    requires Awake(p)
    ensures Awake(Delete(p, session, id).0)
  {
    hide Drain;
    if Delete(p, session, id).1.None? {
      DrainAwakes(Dequeued(p, session, RowAt(p.sessions[session].queue, id).value), session);
    }
  }

  lemma BeginAwakes(p: Peer, session: Id, id: Id)
    requires Awake(p)
    ensures Awake(Begin(p, session, id).0)
  {
    if Begin(p, session, id).2.None? {
      var queue := p.sessions[session].queue;
      var i := RowAt(queue, id).value;
      assert queue[i := queue[i].(blocked := true)][i].blocked;
    }
  }

  lemma FinishEditAwakes(p: Peer, edit: Edit, text: Option<string>)
    requires Awake(p)
    ensures Awake(FinishEdit(p, edit, text).0)
  {
    hide Drain, Trim;
    if FinishEdit(p, edit, text).1.None? { DrainAwakes(Committed(p, edit, text), edit.session); }
  }

  lemma CloseAwakes(p: Peer, session: Id)
    requires Awake(p)
    ensures Awake(Close(p, session))
  {
    hide Drain, Released;
    DrainAwakes(Freed(p, session), session);
  }

  lemma ResumeAwakes(p: Peer, session: Id)
    requires Awake(p)
    ensures Awake(Resume(p, session))
  {
    hide Finish, Drain;
    if session in p.running && session in p.sessions && p.running[session].Turn? {
      var job := p.running[session];
      var i := MessageAt(p.sessions[session].messages, job.reply);
      if i.Some? && job.word < |p.script.words| { FinishAwakes(Told(p, session, i.value, job), session, false); }
    }
  }
}
