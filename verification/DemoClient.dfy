/** The demo peer as the object the app calls. Every method is proved to make the step `DemoPeer` gives for it. */
module DemoClient {
  import opened Whitespace
  import opened Wrappers
  import opened DemoPeer

  class DemoClient {
    const script: Script
    var active: bool
    var showcasing: bool
    var sessions: map<Id, Session>
    var running: map<Id, Job>
    var queuedAttachments: map<Id, seq<Remote>>
    var queueEdits: map<Id, Edit>
    var pausedQueues: set<Id>
    var clock: int
    var nextID: Id

    function Now(): Peer
      reads this
    {
      Peer(script, active, showcasing, sessions, running, queuedAttachments, queueEdits, pausedQueues, clock, nextID)
    }

    constructor (script: Script, clock: int)
      ensures Now() == Idle(script, clock)
    {
      this.script := script;
      active, showcasing := false, false;
      sessions, running, queuedAttachments, queueEdits, pausedQueues := map[], map[], map[], map[], {};
      this.clock, nextID := clock, PROGRESS + 1;
    }

    method Clear()
      modifies this
      ensures Now() == Cleared(old(Now()))
    {
      active, showcasing := false, false;
      running, sessions, queuedAttachments, queueEdits, pausedQueues := map[], map[], map[], map[], {};
    }

    method BeginShowcase()
      modifies this
      ensures Now() == StartShowcase(old(Now()))
    {
      if !active || !showcasing || RUNNING !in sessions || !sessions[RUNNING].working || RUNNING in running { return; }
      running := running[RUNNING := Showcase(0)];
    }

    method RestoreSamples(fixtures: Fixtures)
      modifies this
      ensures Now() == Restore(old(Now()), fixtures)
    {
      Clear();
      active, showcasing := true, true;
      sessions, queuedAttachments := fixtures.sessions, fixtures.files;
      if nextID < fixtures.next { nextID := fixtures.next; }
      BeginShowcase();
    }

    method SignOut()
      modifies this
      ensures Now() == Cleared(old(Now()))
    {
      Clear();
    }

    method CreateSession(accepted: bool) returns (id: Option<Id>)
      modifies this
      ensures (Now(), id) == Create(old(Now()), accepted)
    {
      if !active || !accepted { return None; }
      id := Some(nextID);
      sessions := sessions[nextID := Session([], false, None, [], false, None)];
      nextID := nextID + 1;
    }

    method BeginTurn(session: Id, text: string, files: seq<Remote>, message: Id)
      modifies this
      ensures Now() == StartTurn(old(Now()), session, text, files, message)
    {
      if session !in sessions { return; }
      var state := sessions[session];
      if session == RUNNING { showcasing := false; }
      state := state.(input := None);
      state := state.(messages := state.messages + [Message(message, User, text, files, false)]);
      var reply := nextID;
      nextID := nextID + 1;
      state := state.(messages := state.messages + [Message(reply, Assistant, "", [], true)]);
      state := state.(working := true, turnID := Some(message), failed := false);
      assert state.messages == old(sessions[session].messages)
                               + [Message(message, User, text, files, false), Message(reply, Assistant, "", [], true)];
      sessions := sessions[session := state];
      running := running[session := Turn(reply, 0)];
    }

    method DrainQueue(session: Id)
      modifies this
      ensures Now() == Drain(old(Now()), session)
    {
      if !active || session in pausedQueues || session !in sessions { return; }
      var state := sessions[session];
      if state.working || state.input.Some? || state.queue == [] || state.queue[0].blocked { return; }
      var row := state.queue[0];
      sessions := sessions[session := state.(queue := Without(state.queue, 0))];
      var files := if row.id in queuedAttachments then queuedAttachments[row.id] else [];
      queuedAttachments := queuedAttachments - {row.id};
      BeginTurn(session, row.text, files, row.id);
    }

    method FinishTurn(session: Id, interrupted: bool)
      modifies this
      ensures Now() == Finish(old(Now()), session, interrupted)
    {
      running := running - {session};
      if session !in sessions { return; }
      var state := sessions[session].(working := false);
      var reply := LastStreaming(state.messages);
      if reply.Some? {
        state := state.(messages := state.messages[reply.value := state.messages[reply.value].(streaming := false)]);
      }
      sessions := sessions[session := state];
      if !interrupted { DrainQueue(session); }
    }

    method SendMessage(session: Id, text: string, files: seq<Local>, mode: Mode) returns (failure: Option<Failure>)
      modifies this
      ensures failure == Refusal(old(Now()), session, text, files, mode)
      ensures Now() == Send(old(Now()), session, text, files, mode)
    {
      failure := None;
      if !active || session !in sessions { return Some(NoSession); }
      var state := sessions[session];
      var clean := Trim(text);
      if clean == "" && files == [] { return; }
      if mode.Steer? && files != [] { return Some(FilesMustWait); }
      if exists i :: 0 <= i < |files| && !files[i].valid { return Some(BadAttachment); }
      var remote := Sent(session, files);
      pausedQueues := pausedQueues - {session};
      var id := nextID;
      nextID := nextID + 1;
      if state.working || state.input.Some? {
        if mode.Queue? {
          state := state.(queue := state.queue + [Row(id, clean, Paths(remote), false, false)]);
          queuedAttachments := queuedAttachments[id := remote];
          sessions := sessions[session := state];
          return;
        }
        if state.working {
          state := state.(messages := state.messages + [Message(id, User, clean, [], false)]);
          sessions := sessions[session := state];
          return;
        }
      }
      BeginTurn(session, clean, remote, id);
    }

    method InterruptTurn(session: Id)
      modifies this
      ensures Now() == Interrupt(old(Now()), session)
    {
      if session == RUNNING { showcasing := false; }
      pausedQueues := pausedQueues + {session};
      FinishTurn(session, true);
    }

    method RetryDelivery(session: Id) returns (failure: Option<Failure>)
      modifies this
      ensures (Now(), failure) == Retry(old(Now()), session)
    {
      failure := None;
      if !active || session !in sessions { return Some(NoSession); }
      var state := sessions[session];
      var index := LastUser(state.messages);
      if !state.failed || state.working || index.None? { return; }
      var message := state.messages[index.value];
      sessions := sessions[session := state.(messages := Without(state.messages, index.value))];
      BeginTurn(session, message.text, message.files, message.id);
    }

    method RespondInput(session: Id, request: Id) returns (failure: Option<Failure>)
      modifies this
      ensures (Now(), failure) == Respond(old(Now()), session, request)
    {
      failure := None;
      if session !in sessions || sessions[session].input != Some(request) { return Some(NoQuestion); }
      var state := sessions[session].(input := None);
      state := state.(messages := state.messages + [Message(nextID, Assistant, script.saved, [], false)]);
      nextID := nextID + 1;
      sessions := sessions[session := state];
      assert Now().sessions == Answered(old(Now()), session).sessions;
      DrainQueue(session);
    }

    method SendQueuedNow(session: Id, id: Id) returns (failure: Option<Failure>)
      modifies this
      ensures (Now(), failure) == SendNow(old(Now()), session, id)
    {
      failure := None;
      if !active || session !in sessions || RowAt(sessions[session].queue, id).None? { return Some(LeftQueue); }
      var state := sessions[session];
      var index := RowAt(state.queue, id).value;
      var row := state.queue[index];
      if row.files != [] { return Some(FilesWait); }
      if row.blocked { return Some(BeingEdited); }
      state := state.(queue := Without(state.queue, index));
      queuedAttachments := queuedAttachments - {id};
      pausedQueues := pausedQueues - {session};
      if state.working {
        state := state.(messages := state.messages + [Message(id, User, row.text, [], false)]);
        sessions := sessions[session := state];
        assert sessions == old(sessions)[session := old(sessions[session]).(queue := state.queue)][session := state];
      } else {
        sessions := sessions[session := state];
        BeginTurn(session, row.text, [], id);
      }
    }

    method MoveQueuedMessage(session: Id, id: Id, delta: int) returns (failure: Option<Failure>)
      modifies this
      ensures (Now(), failure) == Move(old(Now()), session, id, delta)
    {
      failure := None;
      if !active || session !in sessions || RowAt(sessions[session].queue, id).None? { return Some(LeftQueue); }
      var state := sessions[session];
      var index := RowAt(state.queue, id).value;
      if state.queue[index].blocked || state.queue[index].pending { return Some(Busy); }
      var destination := index + delta;
      if delta == 0 || destination < 0 || destination >= |state.queue| { return Some(CannotMove); }
      var row := state.queue[index];
      state := state.(queue := Without(state.queue, index));
      state := state.(queue := Inserted(state.queue, destination, row));
      sessions := sessions[session := state];
    }

    method DeleteQueuedMessage(session: Id, id: Id) returns (failure: Option<Failure>)
      modifies this
      ensures (Now(), failure) == Delete(old(Now()), session, id)
    {
      failure := None;
      if !active || session !in sessions || RowAt(sessions[session].queue, id).None? { return Some(LeftQueue); }
      var state := sessions[session];
      sessions := sessions[session := state.(queue := Without(state.queue, RowAt(state.queue, id).value))];
      queuedAttachments := queuedAttachments - {id};
      DrainQueue(session);
    }

    method BeginEdit(session: Id, id: Id) returns (edit: Option<Edit>, failure: Option<Failure>)
      modifies this
      ensures (Now(), edit, failure) == Begin(old(Now()), session, id)
    {
      edit, failure := None, None;
      if !active || session !in sessions || RowAt(sessions[session].queue, id).None? { return None, Some(LeftQueue); }
      var state := sessions[session];
      var index := RowAt(state.queue, id).value;
      if exists l :: l in queueEdits && queueEdits[l].session == session && queueEdits[l].row == id
                     && queueEdits[l].expires > clock {
        return None, Some(AlreadyEdited);
      }
      var granted := Edit(nextID, session, id, state.queue[index].text, clock + LEASE_MILLISECONDS);
      nextID := nextID + 1;
      queueEdits := queueEdits[granted.lease := granted];
      state := state.(queue := state.queue[index := state.queue[index].(blocked := true)]);
      sessions := sessions[session := state];
      edit := Some(granted);
    }

    method RenewEdit(edit: Edit) returns (renewed: bool)
      modifies this
      ensures (Now(), renewed) == Renew(old(Now()), edit)
    {
      if !active || edit.lease !in queueEdits { return false; }
      var saved := queueEdits[edit.lease];
      if saved.expires <= clock || edit.session !in sessions || RowAt(sessions[edit.session].queue, edit.row).None? {
        return false;
      }
      saved := saved.(expires := clock + LEASE_MILLISECONDS);
      queueEdits := queueEdits[edit.lease := saved];
      renewed := true;
    }

    method CommitEdit(edit: Edit, text: Option<string>) returns (failure: Option<Failure>)
      modifies this
      ensures (Now(), failure) == FinishEdit(old(Now()), edit, text)
    {
      failure := None;
      if !active || edit.lease !in queueEdits { return Some(EditOver); }
      var saved := queueEdits[edit.lease];
      if saved.session != edit.session || saved.expires <= clock || edit.session !in sessions
         || RowAt(sessions[edit.session].queue, edit.row).None? {
        return Some(EditOver);
      }
      var state := sessions[edit.session];
      var index := RowAt(state.queue, edit.row).value;
      var row := state.queue[index];
      if row.text != saved.text { return Some(Changed); }
      if text.Some? {
        if Trim(text.value) == "" && row.files == [] { return Some(EmptyMessage); }
        row := row.(text := text.value);
      }
      row := row.(blocked := false);
      state := state.(queue := state.queue[index := row]);
      queueEdits := queueEdits - {edit.lease};
      sessions := sessions[edit.session := state];
      DrainQueue(edit.session);
    }

    /** Gives up one lease and frees its row. */
    method ReleaseEdit(session: Id, l: Id)
      requires l in queueEdits
      modifies this
      ensures Now() == GivenUp(old(Now()), session, l)
    {
      var row := queueEdits[l].row;
      queueEdits := queueEdits - {l};
      if session !in sessions { return; }
      var state := sessions[session];
      var index := RowAt(state.queue, row);
      if index.None? { return; }
      state := state.(queue := state.queue[index.value := state.queue[index.value].(blocked := false)]);
      sessions := sessions[session := state];
    }

    method CloseSession(session: Id)
      modifies this
      ensures Now() == Close(old(Now()), session)
    {
      hide GivenUp, Freeing, Freed, Drain;
      ghost var before := Now();
      var leases := LeasesOf(Now(), session);
      var left := leases;
      assert leases - left == {};
      GivesUpNone(before, session);
      while left != {}
        invariant left <= leases && left <= queueEdits.Keys
        invariant Now() == Freeing(before, session, leases - left)
      {
        var l :| l in left;
        GivesUpOne(before, session, leases - left, l);
        ReleaseEdit(session, l);
        assert leases - left + {l} == leases - (left - {l});
        left := left - {l};
      }
      assert leases - left == leases;
      GivesUpAll(before, session);
      DrainQueue(session);
    }

    method SetForeground(foreground: bool)
      modifies this
      ensures Now() == Foreground(old(Now()), foreground)
    {
      if !showcasing { return; }
      if foreground {
        BeginShowcase();
      } else {
        running := running - {RUNNING};
      }
    }

    method Rewrite(session: Id, index: nat, text: string)
      requires session in sessions && index < |sessions[session].messages|
      modifies `sessions
      ensures Now() == Retold(old(Now()), session, index, text)
    {
      var state := sessions[session];
      state := state.(messages := state.messages[index := state.messages[index].(text := text)]);
      sessions := sessions[session := state];
    }

    /** The next stretch of a session's task, up to where it sleeps again. */
    method ResumeTask(session: Id)
      modifies this
      ensures Now() == Resume(old(Now()), session)
    {
      hide Finish, Retold;
      if session !in running || !active || session !in sessions { return; }
      var state := sessions[session];
      match running[session] {
        case Turn(reply, word) =>
          var index := MessageAt(state.messages, reply);
          if index.None? || word >= |script.words| { return; }
          Rewrite(session, index.value,
                  state.messages[index.value].text + (if word == 0 then "" else " ") + script.words[word]);
          running := running[session := Turn(reply, word + 1)];
          if word + 1 == |script.words| { FinishTurn(session, false); }
        case Showcase(phase) =>
          var index := MessageAt(state.messages, PROGRESS);
          if !showcasing || !state.working || index.None? || script.progress == [] { return; }
          var next := (phase + 1) % |script.progress|;
          Rewrite(session, index.value, script.progress[next]);
          running := running[session := Showcase(next)];
      }
    }
  }

  /** What giving up one lease does. */
  function GivenUp(p: Peer, session: Id, l: Id): Peer
    requires l in p.edits
  {
    var left := p.edits - {l};
    if session !in p.sessions then p.(edits := left)
    else WithQueue(p, session, Unblocked(p.sessions[session].queue, p.edits[l].row)).(edits := left)
  }

  function Unblocked(queue: seq<Row>, row: Id): seq<Row> {
    var index := RowAt(queue, row);
    if index.Some? then queue[index.value := queue[index.value].(blocked := false)] else queue
  }

  function RowsNamed(p: Peer, leases: set<Id>): set<Id>
    requires leases <= p.edits.Keys
  {
    set l | l in leases :: p.edits[l].row
  }

  /** The loop of `CloseSession` after it has given up some leases. */
  function Freeing(p: Peer, session: Id, leases: set<Id>): Peer
    requires leases <= p.edits.Keys
  {
    if session !in p.sessions then p.(edits := p.edits - leases)
    else WithQueue(p, session, Released(p.sessions[session].queue, RowsNamed(p, leases))).(edits := p.edits - leases)
  }

  lemma SamePlaces(a: seq<Row>, b: seq<Row>, id: Id)
    requires |a| == |b| && forall i :: 0 <= i < |a| ==> a[i].id == b[i].id
    ensures RowAt(a, id) == RowAt(b, id)
  {
  }

  lemma ReleasedMore(queue: seq<Row>, rows: set<Id>, row: Id)
    ensures Released(queue, rows + {row}) == Unblocked(Released(queue, rows), row)
  {
    hide RowAt;
    var some, more := Released(queue, rows), Released(queue, rows + {row});
    SamePlaces(queue, some, row);
    forall i | 0 <= i < |queue|
      ensures more[i] == Unblocked(some, row)[i]
    {
      if queue[i].id != row { assert Unblocked(some, row)[i] == some[i]; }
    }
  }

  lemma GivesUpOne(p: Peer, session: Id, done: set<Id>, l: Id)
    requires done <= p.edits.Keys && l in p.edits && l !in done
    ensures l in Freeing(p, session, done).edits
    ensures GivenUp(Freeing(p, session, done), session, l) == Freeing(p, session, done + {l})
    ensures Freeing(p, session, done + {l}).edits == p.edits - (done + {l})
  {
    hide Released, Unblocked;
    assert p.edits - done - {l} == p.edits - (done + {l});
    if session in p.sessions {
      var row := p.edits[l].row;
      assert RowsNamed(p, done + {l}) == RowsNamed(p, done) + {row};
      ReleasedMore(p.sessions[session].queue, RowsNamed(p, done), row);
      var freeing := Freeing(p, session, done);
      assert GivenUp(freeing, session, l).sessions == Freeing(p, session, done + {l}).sessions;
    }
  }

  lemma GivesUpNone(p: Peer, session: Id)
    ensures Freeing(p, session, {}) == p
  {
    assert p.edits - {} == p.edits;
    if session in p.sessions {
      assert Released(p.sessions[session].queue, RowsNamed(p, {})) == p.sessions[session].queue;
      assert Freeing(p, session, {}).sessions == p.sessions;
    }
  }

  lemma GivesUpAll(p: Peer, session: Id)
    ensures Freeing(p, session, LeasesOf(p, session)) == Freed(p, session)
  {
    if session in p.sessions { assert RowsNamed(p, LeasesOf(p, session)) == RowsOf(p, session); }
  }
}
