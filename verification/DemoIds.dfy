/** Identifiers in a session's queue and transcript are never shared or reused. */
module DemoIds {
  import opened Whitespace
  import opened Wrappers
  import opened DemoPeer

  /** Rows and messages carry different identifiers, all below the next one. */
  ghost predicate Clean(queue: seq<Row>, messages: seq<Message>, next: Id) {
    && (forall i, j :: 0 <= i < j < |queue| ==> queue[i].id != queue[j].id)
    && (forall i, j :: 0 <= i < j < |messages| ==> messages[i].id != messages[j].id)
    && (forall i, j :: 0 <= i < |queue| && 0 <= j < |messages| ==> queue[i].id != messages[j].id)
    && (forall i :: 0 <= i < |queue| ==> queue[i].id < next)
    && (forall i :: 0 <= i < |messages| ==> messages[i].id < next)
  }

  ghost predicate Unused(queue: seq<Row>, messages: seq<Message>, id: Id) {
    && (forall i :: 0 <= i < |queue| ==> queue[i].id != id)
    && (forall i :: 0 <= i < |messages| ==> messages[i].id != id)
  }

  ghost predicate Ids(p: Peer) {
    && PROGRESS < p.nextID
    && forall s :: s in p.sessions ==> s < p.nextID && Clean(p.sessions[s].queue, p.sessions[s].messages, p.nextID)
  }

  lemma Later(queue: seq<Row>, messages: seq<Message>, next: Id, later: Id)
    requires Clean(queue, messages, next) && next <= later
    ensures Clean(queue, messages, later)
  {
  }

  lemma NextUnused(queue: seq<Row>, messages: seq<Message>, next: Id)
    requires Clean(queue, messages, next)
    ensures Unused(queue, messages, next)
  {
  }

  lemma TakenIsUnused(queue: seq<Row>, messages: seq<Message>, next: Id, i: nat)
    requires Clean(queue, messages, next) && i < |queue|
    ensures Clean(Without(queue, i), messages, next) && Unused(Without(queue, i), messages, queue[i].id)
            && queue[i].id < next
  {
    var rest := Without(queue, i);
    assert forall k :: 0 <= k < |rest| ==> rest[k] == queue[if k < i then k else k + 1];
  }

  lemma PulledIsUnused(queue: seq<Row>, messages: seq<Message>, next: Id, i: nat)
    requires Clean(queue, messages, next) && i < |messages|
    ensures Clean(queue, Without(messages, i), next) && Unused(queue, Without(messages, i), messages[i].id)
            && messages[i].id < next
  {
    var rest := Without(messages, i);
    assert forall k :: 0 <= k < |rest| ==> rest[k] == messages[if k < i then k else k + 1];
  }

  lemma RowIsClean(queue: seq<Row>, messages: seq<Message>, next: Id, row: Row)
    requires Clean(queue, messages, next) && Unused(queue, messages, row.id) && row.id < next
    ensures Clean(queue + [row], messages, next)
  {
  }

  lemma MessageIsClean(queue: seq<Row>, messages: seq<Message>, next: Id, message: Message)
    requires Clean(queue, messages, next) && Unused(queue, messages, message.id) && message.id < next
    ensures Clean(queue, messages + [message], next)
    ensures forall id :: Unused(queue, messages, id) && id != message.id ==> Unused(queue, messages + [message], id)
  {
  }

  lemma SameIdsAreClean(queue: seq<Row>, messages: seq<Message>, queue': seq<Row>, messages': seq<Message>, next: Id)
    requires Clean(queue, messages, next) && |queue'| == |queue| && |messages'| == |messages|
    requires forall i :: 0 <= i < |queue| ==> queue'[i].id == queue[i].id
    requires forall i :: 0 <= i < |messages| ==> messages'[i].id == messages[i].id
    ensures Clean(queue', messages', next)
  {
  }

  /** Where the rows of a queue stand after one of them moved. */
  lemma MovedRows(queue: seq<Row>, i: nat, to: nat)
    requires i < |queue| && to < |queue|
    ensures var moved := Inserted(Without(queue, i), to, queue[i]);
            && |moved| == |queue| && moved[to] == queue[i]
            && (forall k :: 0 <= k < |queue| && k != to ==>
                  moved[k] == queue[var j := if k < to then k else k - 1; if j < i then j else j + 1])
  {
    var rest := Without(queue, i);
    assert forall k :: 0 <= k < |rest| ==> rest[k] == queue[if k < i then k else k + 1];
  }

  lemma MovedIsClean(queue: seq<Row>, messages: seq<Message>, next: Id, i: nat, to: nat)
    requires Clean(queue, messages, next) && i < |queue| && to < |queue|
    ensures Clean(Inserted(Without(queue, i), to, queue[i]), messages, next)
  {
    hide Inserted, Without;
    MovedRows(queue, i, to);
  }

  /** A step that changes one session. */
  lemma OneSession(p: Peer, q: Peer, session: Id)
    requires Ids(p) && p.nextID <= q.nextID && q.sessions.Keys == p.sessions.Keys + {session} && session < q.nextID
    requires forall s :: s in p.sessions && s != session ==> q.sessions[s] == p.sessions[s]
    requires Clean(q.sessions[session].queue, q.sessions[session].messages, q.nextID)
    ensures Ids(q)
  {
    hide Clean;
    forall s | s in p.sessions && s != session
      ensures Clean(q.sessions[s].queue, q.sessions[s].messages, q.nextID)
    {
      Later(p.sessions[s].queue, p.sessions[s].messages, p.nextID, q.nextID);
    }
  }

  lemma StartIds(p: Peer, session: Id, text: string, files: seq<Remote>, message: Id)
    requires Ids(p) && message < p.nextID
    requires session in p.sessions ==> Unused(p.sessions[session].queue, p.sessions[session].messages, message)
    ensures Ids(StartTurn(p, session, text, files, message))
  {
    hide Clean, Unused;
    if session in p.sessions {
      var state := p.sessions[session];
      var first, second := Message(message, User, text, files, false), Message(p.nextID, Assistant, "", [], true);
      NextUnused(state.queue, state.messages, p.nextID);
      MessageIsClean(state.queue, state.messages, p.nextID, first);
      Later(state.queue, state.messages + [first], p.nextID, p.nextID + 1);
      MessageIsClean(state.queue, state.messages + [first], p.nextID + 1, second);
      assert state.messages + [first] + [second] == state.messages + [first, second];
      OneSession(p, StartTurn(p, session, text, files, message), session);
    }
  }

  lemma DequeuedIds(p: Peer, session: Id, i: nat)
    requires Ids(p) && session in p.sessions && i < |p.sessions[session].queue|
    ensures var q := Dequeued(p, session, i);
            var row := p.sessions[session].queue[i];
            && Ids(q) && row.id < q.nextID && session in q.sessions
            && Unused(q.sessions[session].queue, q.sessions[session].messages, row.id)
  {
    hide Clean, Unused, Without;
    TakenIsUnused(p.sessions[session].queue, p.sessions[session].messages, p.nextID, i);
    OneSession(p, Dequeued(p, session, i), session);
  }

  lemma DrainIds(p: Peer, session: Id)
    requires Ids(p)
    ensures Ids(Drain(p, session))
  {
    hide Ids, Dequeued, StartTurn, Unused;
    if Deliverable(p, session) {
      var row := p.sessions[session].queue[0];
      DequeuedIds(p, session, 0);
      StartIds(Dequeued(p, session, 0), session, row.text, Files(p.files, row.id), row.id);
    }
  }

  lemma HaltedIds(p: Peer, session: Id)
    requires Ids(p) && session in p.sessions
    ensures Ids(Halted(p, session))
  {
    hide Clean;
    var state := p.sessions[session];
    SameIdsAreClean(state.queue, state.messages, state.queue, Settled(state.messages), p.nextID);
    OneSession(p, Halted(p, session), session);
  }

  lemma FinishIds(p: Peer, session: Id, interrupted: bool)
    requires Ids(p)
    ensures Ids(Finish(p, session, interrupted))
  {
    hide Drain, Clean, Halted;
    if session in p.sessions {
      HaltedIds(p, session);
      DrainIds(Halted(p, session), session);
    }
  }

  lemma InterruptIds(p: Peer, session: Id)
    requires Ids(p)
    ensures Ids(Interrupt(p, session))
  {
    SameIds(p, Stopped(p, session));
    FinishIds(Stopped(p, session), session, true);
  }

  lemma CreateIds(p: Peer, accepted: bool)
    requires Ids(p)
    ensures Ids(Create(p, accepted).0)
  {
    hide Clean;
    if p.active && accepted {
      EmptyIsClean(p.nextID + 1);
      OneSession(p, Create(p, accepted).0, p.nextID);
    }
  }

  lemma EmptyIsClean(next: Id)
    ensures Clean([], [], next)
  {
  }

  lemma SendIds(p: Peer, session: Id, text: string, files: seq<Local>, mode: Mode)
    requires Ids(p)
    ensures Ids(Send(p, session, text, files, mode))
  {
    hide Sent, Trim, Clean, Unused, StartTurn, Paths;
    if Accepts(p, session, text, files, mode) {
      var state := p.sessions[session];
      var n := p.nextID;
      NextUnused(state.queue, state.messages, n);
      Later(state.queue, state.messages, n, n + 1);
      RowIsClean(state.queue, state.messages, n + 1, Row(n, Trim(text), Paths(Sent(session, files)), false, false));
      MessageIsClean(state.queue, state.messages, n + 1, Message(n, User, Trim(text), [], false));
      var named := p.(paused := p.paused - {session}, nextID := n + 1);
      OneSession(p, named, session);
      if !state.working && (mode.Steer? || state.input.None?) {
        StartIds(named, session, Trim(text), Sent(session, files), n);
      } else {
        OneSession(p, Send(p, session, text, files, mode), session);
      }
    }
  }

  lemma RetryIds(p: Peer, session: Id)
    requires Ids(p)
    ensures Ids(Retry(p, session).0)
  {
    hide StartTurn, Clean, Unused, Without;
    if session in p.sessions && LastUser(p.sessions[session].messages).Some? {
      var state := p.sessions[session];
      var i := LastUser(state.messages).value;
      PulledIsUnused(state.queue, state.messages, p.nextID, i);
      OneSession(p, Pulled(p, session, i), session);
      StartIds(Pulled(p, session, i), session, state.messages[i].text, state.messages[i].files, state.messages[i].id);
    }
  }

  lemma AnsweredIds(p: Peer, session: Id)
    requires Ids(p) && session in p.sessions
    ensures Ids(Answered(p, session))
  {
    hide Clean, Unused;
    var state := p.sessions[session];
    NextUnused(state.queue, state.messages, p.nextID);
    Later(state.queue, state.messages, p.nextID, p.nextID + 1);
    MessageIsClean(state.queue, state.messages, p.nextID + 1, Message(p.nextID, Assistant, p.script.saved, [], false));
    OneSession(p, Answered(p, session), session);
  }

  lemma RespondIds(p: Peer, session: Id, request: Id)
    requires Ids(p)
    ensures Ids(Respond(p, session, request).0)
  {
    hide Drain, Answered, Ids;
    if session in p.sessions {
      AnsweredIds(p, session);
      DrainIds(Answered(p, session), session);
    }
  }

  lemma SendNowIds(p: Peer, session: Id, id: Id)
    requires Ids(p)
    ensures Ids(SendNow(p, session, id).0)
  {
    hide StartTurn, Clean, Unused, Without;
    if SendNow(p, session, id).1.None? {
      var i := RowAt(p.sessions[session].queue, id).value;
      var text := p.sessions[session].queue[i].text;
      DequeuedIds(p, session, i);
      var taken := Dequeued(p, session, i).(paused := p.paused - {session});
      StartIds(taken, session, text, [], id);
      var state := taken.sessions[session];
      MessageIsClean(state.queue, state.messages, p.nextID, Message(id, User, text, [], false));
      OneSession(taken, Posted(taken, session, Message(id, User, text, [], false)), session);
    }
  }

  lemma MoveIds(p: Peer, session: Id, id: Id, delta: int)
    requires Ids(p)
    ensures Ids(Move(p, session, id, delta).0)
  {
    hide Clean, Inserted, Without;
    if Move(p, session, id, delta).1.None? {
      var state := p.sessions[session];
      var i := RowAt(state.queue, id).value;
      MovedIsClean(state.queue, state.messages, p.nextID, i, i + delta);
      OneSession(p, Move(p, session, id, delta).0, session);
    }
  }

  lemma DeleteIds(p: Peer, session: Id, id: Id)
    requires Ids(p)
    ensures Ids(Delete(p, session, id).0)
  {
    hide Drain, Dequeued, Ids;
    if Delete(p, session, id).1.None? {
      var i := RowAt(p.sessions[session].queue, id).value;
      DequeuedIds(p, session, i);
      DrainIds(Dequeued(p, session, i), session);
    }
  }

  lemma BeginIds(p: Peer, session: Id, id: Id)
    requires Ids(p)
    ensures Ids(Begin(p, session, id).0)
  {
    hide Clean, Leased;
    if Begin(p, session, id).2.None? {
      var state := p.sessions[session];
      var q := Begin(p, session, id).0;
      Later(state.queue, state.messages, p.nextID, q.nextID);
      SameIdsAreClean(state.queue, state.messages, q.sessions[session].queue, state.messages, q.nextID);
      OneSession(p, q, session);
    }
  }

  lemma CommittedIds(p: Peer, edit: Edit, text: Option<string>)
    requires Ids(p) && Current(p, edit)
    ensures Ids(Committed(p, edit, text))
  {
    hide Clean;
    var state := p.sessions[edit.session];
    var q := Committed(p, edit, text);
    SameIdsAreClean(state.queue, state.messages, q.sessions[edit.session].queue, state.messages, p.nextID);
    OneSession(p, q, edit.session);
  }

  lemma FinishEditIds(p: Peer, edit: Edit, text: Option<string>)
    requires Ids(p)
    ensures Ids(FinishEdit(p, edit, text).0)
  {
    hide Drain, Trim, Clean, Ids;
    if FinishEdit(p, edit, text).1.None? {
      CommittedIds(p, edit, text);
      DrainIds(Committed(p, edit, text), edit.session);
    }
  }

  lemma FreedIds(p: Peer, session: Id)
    requires Ids(p)
    ensures Ids(Freed(p, session))
  {
    hide Clean, RowsOf, LeasesOf;
    if session in p.sessions {
      var state := p.sessions[session];
      var q := Freed(p, session);
      SameIdsAreClean(state.queue, state.messages, q.sessions[session].queue, state.messages, p.nextID);
      OneSession(p, q, session);
    }
  }

  lemma CloseIds(p: Peer, session: Id)
    requires Ids(p)
    ensures Ids(Close(p, session))
  {
    FreedIds(p, session);
    DrainIds(Freed(p, session), session);
  }

  lemma RetoldIds(p: Peer, session: Id, i: nat, text: string)
    requires Ids(p) && session in p.sessions && i < |p.sessions[session].messages|
    ensures Ids(Retold(p, session, i, text))
  {
    hide Clean;
    var state := p.sessions[session];
    var q := Retold(p, session, i, text);
    SameIdsAreClean(state.queue, state.messages, state.queue, q.sessions[session].messages, p.nextID);
    OneSession(p, q, session);
  }

  lemma SameIds(p: Peer, q: Peer)
    requires Ids(p) && q.sessions == p.sessions && q.nextID == p.nextID
    ensures Ids(q)
  {
    hide Clean;
  }

  lemma OneMore(p: Peer, q: Peer)
    requires Ids(p) && q.sessions == p.sessions && q.nextID == p.nextID + 1
    ensures Ids(q)
  {
    hide Clean;
    forall s | s in p.sessions
      ensures Clean(q.sessions[s].queue, q.sessions[s].messages, q.nextID)
    {
      Later(p.sessions[s].queue, p.sessions[s].messages, p.nextID, q.nextID);
    }
  }

  lemma ToldIds(p: Peer, session: Id, i: nat, job: Job)
    requires Ids(p) && session in p.sessions && i < |p.sessions[session].messages| && job.Turn?
    requires job.word < |p.script.words|
    ensures Ids(Told(p, session, i, job))
  {
    hide Ids, Retold;
    var before := p.sessions[session].messages[i].text;
    var text := before + (if job.word == 0 then "" else " ") + p.script.words[job.word];
    RetoldIds(p, session, i, text);
    SameIds(Retold(p, session, i, text), Told(p, session, i, job));
  }

  lemma ResumeIds(p: Peer, session: Id)
    requires Ids(p)
    ensures Ids(Resume(p, session))
  {
    hide Finish, Retold, Ids;
    if session in p.running && session in p.sessions {
      var state := p.sessions[session];
      var job := p.running[session];
      if job.Turn? {
        var i := MessageAt(state.messages, job.reply);
        if i.Some? && job.word < |p.script.words| {
          ToldIds(p, session, i.value, job);
          FinishIds(Told(p, session, i.value, job), session, false);
        }
      } else {
        var i := MessageAt(state.messages, PROGRESS);
        if i.Some? && p.script.progress != [] {
          var next := (job.phase + 1) % |p.script.progress|;
          var q := Retold(p, session, i.value, p.script.progress[next]);
          RetoldIds(p, session, i.value, p.script.progress[next]);
          SameIds(q, q.(running := p.running[session := Showcase(next)]));
        }
      }
    }
  }
}
