/** A session works exactly as long as a live task writes for it, and only that task's message streams. */
module DemoTasks {
  import opened Whitespace
  import opened Wrappers
  import opened DemoPeer
  import opened DemoIds

  function Joined(words: seq<string>): string {
    if words == [] then ""
    else Joined(words[..|words| - 1]) + (if |words| == 1 then "" else " ") + words[|words| - 1]
  }

  /** The message the session's task writes. The sample has one even while it is in the background. */
  function Writing(p: Peer, session: Id): Option<Id> {
    if session in p.running && p.running[session].Turn? then Some(p.running[session].reply)
    else if session == RUNNING && p.showcasing then Some(PROGRESS)
    else None
  }

  ghost predicate StreamsOnly(messages: seq<Message>, writing: Option<Id>) {
    forall i :: 0 <= i < |messages| ==> (messages[i].streaming <==> writing == Some(messages[i].id))
  }

  /** The written message is there, is an assistant's and, in a turn, says exactly the words so far. */
  ghost predicate Written(messages: seq<Message>, id: Id, text: Option<string>) {
    exists i :: 0 <= i < |messages| && messages[i].id == id && messages[i].role.Assistant?
                && (text.Some? ==> messages[i].text == text.value)
  }

  /** What the written message says in a turn: the words told so far. */
  function SoFar(p: Peer, session: Id): Option<string> {
    if session in p.running && p.running[session].Turn? && p.running[session].word <= |p.script.words|
    then Some(Joined(p.script.words[..p.running[session].word])) else None
  }

  ghost predicate TaskAt(p: Peer, session: Id)
    requires session in p.sessions
  {
    var state := p.sessions[session];
    && (state.working <==> Writing(p, session).Some?)
    && StreamsOnly(state.messages, Writing(p, session))
    && (Writing(p, session).Some? ==> Written(state.messages, Writing(p, session).value, SoFar(p, session)))
    && (session in p.running ==>
          match p.running[session]
          case Turn(_, word) => word < |p.script.words| && !(session == RUNNING && p.showcasing)
          case Showcase(_) => session == RUNNING && p.showcasing)
  }

  ghost predicate TasksBut(p: Peer, session: Id) {
    && p.script.words != [] && p.script.progress != []
    && (!p.active ==> p.sessions == map[] && !p.showcasing)
    && p.running.Keys <= p.sessions.Keys
    && forall s :: s in p.sessions && s != session ==> TaskAt(p, s)
  }

  ghost predicate Tasks(p: Peer) {
    && p.script.words != [] && p.script.progress != []
    && (!p.active ==> p.sessions == map[] && !p.showcasing)
    && p.running.Keys <= p.sessions.Keys
    && forall s :: s in p.sessions ==> TaskAt(p, s)
  }

  /** A step that leaves the tasks alone and changes one session. */
  lemma OtherTasks(p: Peer, q: Peer, session: Id)
    requires TasksBut(p, session) && q.script == p.script && q.active == p.active && q.running.Keys <= q.sessions.Keys
    requires (q.sessions.Keys == p.sessions.Keys || q.active) && p.sessions.Keys <= q.sessions.Keys
    requires q.sessions.Keys <= p.sessions.Keys + {session}
    requires forall s :: s != session ==>
               && (s in p.sessions ==> q.sessions[s] == p.sessions[s])
               && (s in q.running <==> s in p.running) && (s in p.running ==> q.running[s] == p.running[s])
    requires q.showcasing == p.showcasing || (session == RUNNING && !q.showcasing)
    ensures TasksBut(q, session)
    ensures session in q.sessions && TaskAt(q, session) ==> Tasks(q)
  {
    hide StreamsOnly, Written, Joined;
    forall s | s in q.sessions && s != session
      ensures TaskAt(q, s)
    {
      assert TaskAt(p, s);
    }
  }

  lemma StartTasks(p: Peer, session: Id, text: string, files: seq<Remote>, message: Id)
    requires TasksBut(p, session) && p.active && session in p.sessions && message < p.nextID
    requires StreamsOnly(p.sessions[session].messages, None)
    requires forall i :: 0 <= i < |p.sessions[session].messages| ==> p.sessions[session].messages[i].id < p.nextID
    ensures Tasks(StartTurn(p, session, text, files, message))
  {
    var q := StartTurn(p, session, text, files, message);
    var messages := q.sessions[session].messages;
    assert messages[|messages| - 1] == Message(p.nextID, Assistant, "", [], true);
    OtherTasks(p, q, session);
  }

  lemma HaltedTasks(p: Peer, session: Id)
    requires TasksBut(p, session) && session in p.sessions && !(session == RUNNING && p.showcasing)
    requires exists w :: StreamsOnly(p.sessions[session].messages, w)
                         && (w.Some? ==> Written(p.sessions[session].messages, w.value, None))
    requires Clean(p.sessions[session].queue, p.sessions[session].messages, p.nextID)
    ensures Tasks(Halted(p, session)) && StreamsOnly(Halted(p, session).sessions[session].messages, None)
  {
    SettledStreams(p.sessions[session].queue, p.sessions[session].messages, p.nextID);
    OtherTasks(p, Halted(p, session), session);
  }

  lemma SettledStreams(queue: seq<Row>, messages: seq<Message>, next: Id)
    requires exists w :: StreamsOnly(messages, w) && (w.Some? ==> Written(messages, w.value, None))
    requires Clean(queue, messages, next)
    ensures StreamsOnly(Settled(messages), None)
  {
    var w :| StreamsOnly(messages, w) && (w.Some? ==> Written(messages, w.value, None));
    if w.Some? {
      var i :| 0 <= i < |messages| && messages[i].id == w.value && messages[i].role.Assistant?;
    }
  }

  /** Nothing streams in a session that does not work. */
  lemma IdleIsQuiet(p: Peer, session: Id)
    requires Tasks(p) && session in p.sessions && !p.sessions[session].working
    ensures StreamsOnly(p.sessions[session].messages, None) && !(session == RUNNING && p.showcasing)
    ensures session !in p.running
  {
    assert TaskAt(p, session);
  }

  /** Nothing but queues, leases and the like changes. */
  lemma SameTasks(p: Peer, q: Peer, session: Id)
    requires Tasks(p) && q.script == p.script && q.active == p.active
    requires q.running == p.running && q.showcasing == p.showcasing && q.sessions.Keys == p.sessions.Keys
    requires forall s :: s in p.sessions && s != session ==> q.sessions[s] == p.sessions[s]
    requires session in p.sessions ==> q.sessions[session].messages == p.sessions[session].messages
                                       && q.sessions[session].working == p.sessions[session].working
    ensures Tasks(q)
  {
    hide StreamsOnly, Written, Joined;
    forall s | s in q.sessions
      ensures TaskAt(q, s)
    {
      assert TaskAt(p, s);
    }
  }

  /** A finished message joins the transcript. */
  lemma PostedTasks(p: Peer, q: Peer, session: Id, message: Message)
    requires Tasks(p) && session in p.sessions && q.script == p.script && q.active == p.active
    requires q.running == p.running && q.showcasing == p.showcasing && q.sessions.Keys == p.sessions.Keys
    requires forall s :: s in p.sessions && s != session ==> q.sessions[s] == p.sessions[s]
    requires q.sessions[session].messages == p.sessions[session].messages + [message]
    requires q.sessions[session].working == p.sessions[session].working
    requires !message.streaming
    requires forall i :: 0 <= i < |p.sessions[session].messages| ==> p.sessions[session].messages[i].id != message.id
    ensures Tasks(q)
  {
    hide Joined;
    assert TaskAt(p, session);
    var before, after := p.sessions[session].messages, q.sessions[session].messages;
    var writing := Writing(p, session);
    if writing.Some? {
      var text := SoFar(p, session);
      var i :| 0 <= i < |before| && before[i].id == writing.value && before[i].role.Assistant?
               && (text.Some? ==> before[i].text == text.value);
      assert after[i] == before[i];
    }
    assert TaskAt(q, session);
    OtherTasks(p, q, session);
  }

  lemma DrainTasks(p: Peer, session: Id)
    requires Tasks(p) && Ids(p)
    ensures Tasks(Drain(p, session))
  {
    hide StreamsOnly, Written, TaskAt, Without;
    if Deliverable(p, session) {
      var row := p.sessions[session].queue[0];
      SameTasks(p, Dequeued(p, session, 0), session);
      IdleIsQuiet(p, session);
      DequeuedIds(p, session, 0);
      StartTasks(Dequeued(p, session, 0), session, row.text, Files(p.files, row.id), row.id);
    }
  }

  lemma FinishTasks(p: Peer, session: Id, interrupted: bool)
    requires TasksBut(p, session) && Ids(p) && !(session == RUNNING && p.showcasing)
    requires session in p.sessions ==>
               exists w :: StreamsOnly(p.sessions[session].messages, w)
                           && (w.Some? ==> Written(p.sessions[session].messages, w.value, None))
    ensures Tasks(Finish(p, session, interrupted))
  {
    hide StreamsOnly, Written, TaskAt, Drain;
    if session in p.sessions {
      HaltedTasks(p, session);
      HaltedIds(p, session);
      DrainTasks(Halted(p, session), session);
    } else {
      assert p.running - {session} == p.running;
    }
  }

  lemma WriterIsKnown(p: Peer, session: Id)
    requires Tasks(p) && session in p.sessions
    ensures exists w :: StreamsOnly(p.sessions[session].messages, w)
                        && (w.Some? ==> Written(p.sessions[session].messages, w.value, None))
  {
    assert TaskAt(p, session);
    var w := Writing(p, session);
    assert StreamsOnly(p.sessions[session].messages, w);
  }

  lemma InterruptTasks(p: Peer, session: Id)
    requires Tasks(p) && Ids(p)
    ensures Tasks(Interrupt(p, session))
  {
    hide StreamsOnly, Written, TaskAt, Finish;
    if session in p.sessions { WriterIsKnown(p, session); }
    OtherTasks(p, Stopped(p, session), session);
    SameIds(p, Stopped(p, session));
    FinishTasks(Stopped(p, session), session, true);
  }

  lemma StartFromIdle(p: Peer, session: Id, text: string, files: seq<Remote>, message: Id)
    requires Tasks(p) && Ids(p) && p.active && session in p.sessions && !p.sessions[session].working
             && message < p.nextID
    ensures Tasks(StartTurn(p, session, text, files, message))
  {
    hide StreamsOnly, Written, TaskAt, StartTurn;
    IdleIsQuiet(p, session);
    StartTasks(p, session, text, files, message);
  }

  lemma SendTasks(p: Peer, session: Id, text: string, files: seq<Local>, mode: Mode)
    requires Tasks(p) && Ids(p)
    ensures Tasks(Send(p, session, text, files, mode))
  {
    hide StreamsOnly, Written, TaskAt, Sent, Trim, Paths, StartTurn, Clean;
    if Accepts(p, session, text, files, mode) {
      var state := p.sessions[session];
      if (state.working || state.input.Some?) && mode.Queue? {
        SameTasks(p, Send(p, session, text, files, mode), session);
      } else {
        var named := p.(paused := p.paused - {session}, nextID := p.nextID + 1);
        var message := Message(p.nextID, User, Trim(text), [], false);
        SameTasks(p, named, session);
        OneMore(p, named);
        if state.working {
          assert Clean(state.queue, state.messages, p.nextID);
          NextUnused(state.queue, state.messages, p.nextID);
          PostedTasks(named, Posted(named, session, message), session, message);
        } else {
          StartFromIdle(named, session, Trim(text), Sent(session, files), p.nextID);
        }
      }
    }
  }

  lemma RetryTasks(p: Peer, session: Id)
    requires Tasks(p) && Ids(p)
    ensures Tasks(Retry(p, session).0)
  {
    hide Written, TaskAt, StartTurn;
    if Retry(p, session).0 != p {
      var state := p.sessions[session];
      var i := LastUser(state.messages).value;
      IdleIsQuiet(p, session);
      assert Writing(p, session).None? by { assert TaskAt(p, session); }
      OtherTasks(p, Pulled(p, session, i), session);
      var rest := Without(state.messages, i);
      assert forall k :: 0 <= k < |rest| ==> rest[k] == state.messages[if k < i then k else k + 1];
      StartTasks(Pulled(p, session, i), session, state.messages[i].text, state.messages[i].files, state.messages[i].id);
    }
  }

  lemma RespondTasks(p: Peer, session: Id, request: Id)
    requires Tasks(p) && Ids(p)
    ensures Tasks(Respond(p, session, request).0)
  {
    hide StreamsOnly, Written, TaskAt, Drain;
    if Respond(p, session, request).1.None? {
      PostedTasks(p, Answered(p, session), session, Message(p.nextID, Assistant, p.script.saved, [], false));
      AnsweredIds(p, session);
      DrainTasks(Answered(p, session), session);
    }
  }

  lemma SendNowTasks(p: Peer, session: Id, id: Id)
    requires Tasks(p) && Ids(p)
    ensures Tasks(SendNow(p, session, id).0)
  {
    hide StreamsOnly, Written, TaskAt, StartTurn, Without, Clean;
    if SendNow(p, session, id).1.None? {
      var i := RowAt(p.sessions[session].queue, id).value;
      var message := Message(id, User, p.sessions[session].queue[i].text, [], false);
      var taken := Dequeued(p, session, i).(paused := p.paused - {session});
      DequeuedIds(p, session, i);
      SameIds(Dequeued(p, session, i), taken);
      SameTasks(p, taken, session);
      if p.sessions[session].working {
        PostedTasks(taken, Posted(taken, session, message), session, message);
      } else {
        StartFromIdle(taken, session, message.text, [], id);
      }
    }
  }

  lemma DeleteTasks(p: Peer, session: Id, id: Id)
    requires Tasks(p) && Ids(p)
    ensures Tasks(Delete(p, session, id).0)
  {
    hide Tasks, Ids, Drain, Without;
    if Delete(p, session, id).1.None? {
      var i := RowAt(p.sessions[session].queue, id).value;
      SameTasks(p, Dequeued(p, session, i), session);
      DequeuedIds(p, session, i);
      DrainTasks(Dequeued(p, session, i), session);
    }
  }

  lemma FinishEditTasks(p: Peer, edit: Edit, text: Option<string>)
    requires Tasks(p) && Ids(p)
    ensures Tasks(FinishEdit(p, edit, text).0)
  {
    hide Tasks, Ids, Drain, Trim;
    if FinishEdit(p, edit, text).1.None? {
      SameTasks(p, Committed(p, edit, text), edit.session);
      CommittedIds(p, edit, text);
      DrainTasks(Committed(p, edit, text), edit.session);
    }
  }

  lemma FreedTasks(p: Peer, session: Id)
    requires Tasks(p)
    ensures Tasks(Freed(p, session))
  {
    hide Tasks, RowsOf, LeasesOf, Released;
    SameTasks(p, Freed(p, session), session);
  }

  lemma CloseTasks(p: Peer, session: Id)
    requires Tasks(p) && Ids(p)
    ensures Tasks(Close(p, session))
  {
    hide Tasks, Ids, Freed, Drain;
    FreedTasks(p, session);
    FreedIds(p, session);
    DrainTasks(Freed(p, session), session);
  }

  lemma MoveTasks(p: Peer, session: Id, id: Id, delta: int)
    requires Tasks(p)
    ensures Tasks(Move(p, session, id, delta).0)
  {
    hide Tasks, Inserted, Without, RowAt;
    SameTasks(p, Move(p, session, id, delta).0, session);
  }

  lemma BeginTasks(p: Peer, session: Id, id: Id)
    requires Tasks(p)
    ensures Tasks(Begin(p, session, id).0)
  {
    hide Tasks, Leased, RowAt;
    SameTasks(p, Begin(p, session, id).0, session);
  }

  lemma CreateTasks(p: Peer, accepted: bool)
    requires Tasks(p) && Ids(p)
    ensures Tasks(Create(p, accepted).0)
  {
    hide Written, Joined;
    if p.active && accepted {
      assert p.nextID !in p.sessions;
      OtherTasks(p, Create(p, accepted).0, p.nextID);
    }
  }

  lemma ForegroundTasks(p: Peer, foreground: bool)
    requires Tasks(p)
    ensures Tasks(Foreground(p, foreground))
  {
    hide StreamsOnly, Written, Joined;
    var q := Foreground(p, foreground);
    if RUNNING in p.sessions {
      assert TaskAt(p, RUNNING);
      OtherTasks(p, q, RUNNING);
    }
  }

  /** One more word keeps the reply saying exactly the words so far. */
  lemma OneMoreWord(queue: seq<Row>, messages: seq<Message>, next: Id, i: nat, id: Id, words: seq<string>, word: nat)
    requires Clean(queue, messages, next) && i < |messages| && messages[i].id == id && word < |words|
    requires StreamsOnly(messages, Some(id)) && Written(messages, id, Some(Joined(words[..word])))
    ensures var after := messages[i].(text := messages[i].text + (if word == 0 then "" else " ") + words[word]);
            StreamsOnly(messages[i := after], Some(id))
            && Written(messages[i := after], id, Some(Joined(words[..word + 1])))
  {
    var k :| 0 <= k < |messages| && messages[k].id == id && messages[k].role.Assistant?
             && messages[k].text == Joined(words[..word]);
    assert k == i;
    var said := words[..word + 1];
    assert said[..|said| - 1] == words[..word];
    var after := messages[i].(text := messages[i].text + (if word == 0 then "" else " ") + words[word]);
    assert messages[i := after][i].text == Joined(said);
  }

  lemma ToldTasks(p: Peer, session: Id, i: nat, job: Job)
    requires Tasks(p) && Ids(p) && session in p.running && p.running[session] == job && job.Turn?
    requires job.word < |p.script.words| && MessageAt(p.sessions[session].messages, job.reply) == Some(i)
    ensures var q := Told(p, session, i, job);
            && TasksBut(q, session) && session in q.sessions && q.sessions[session].working
            && StreamsOnly(q.sessions[session].messages, Some(job.reply))
            && Written(q.sessions[session].messages, job.reply, Some(Joined(p.script.words[..job.word + 1])))
            && session in q.running && q.running[session] == Turn(job.reply, job.word + 1) && q.script == p.script
            && !(session == RUNNING && q.showcasing)
  {
    hide StreamsOnly, Written, Joined, Clean;
    var state := p.sessions[session];
    assert TaskAt(p, session);
    OneMoreWord(state.queue, state.messages, p.nextID, i, job.reply, p.script.words, job.word);
    OtherTasks(p, Told(p, session, i, job), session);
  }

  lemma ResumeTasks(p: Peer, session: Id)
    requires Tasks(p) && Ids(p)
    ensures Tasks(Resume(p, session))
  {
    hide StreamsOnly, Written, Finish, Told, Joined, Clean, TasksBut;
    if session in p.running && p.active {
      var job := p.running[session];
      var messages := p.sessions[session].messages;
      var i := MessageAt(messages, if job.Turn? then job.reply else PROGRESS);
      assert TaskAt(p, session);
      if i.Some? && job.Turn? {
        var q := Told(p, session, i.value, job);
        ToldTasks(p, session, i.value, job);
        ToldIds(p, session, i.value, job);
        if job.word + 1 == |p.script.words| {
          WrittenAnyway(q.sessions[session].messages, job.reply, Some(Joined(p.script.words[..job.word + 1])));
          FinishTasks(q, session, false);
        } else {
          LastTold(p, q, session, job);
        }
      } else if i.Some? {
        ShownTasks(p, session, i.value, (job.phase + 1) % |p.script.progress|);
      }
    }
  }

  lemma WrittenAnyway(messages: seq<Message>, id: Id, text: Option<string>)
    requires Written(messages, id, text)
    ensures Written(messages, id, None)
  {
  }

  lemma LastTold(p: Peer, q: Peer, session: Id, job: Job)
    requires session in p.running && p.running[session] == job && job.Turn? && job.word + 1 < |p.script.words|
    requires TasksBut(q, session) && session in q.sessions && q.sessions[session].working
    requires session in q.running && q.running[session] == Turn(job.reply, job.word + 1) && q.script == p.script
    requires !(session == RUNNING && q.showcasing)
    requires StreamsOnly(q.sessions[session].messages, Some(job.reply))
    requires Written(q.sessions[session].messages, job.reply, Some(Joined(p.script.words[..job.word + 1])))
    ensures Tasks(q)
  {
    hide StreamsOnly, Written, Joined;
    assert TaskAt(q, session);
  }

  lemma Reshown(queue: seq<Row>, messages: seq<Message>, next: Id, i: nat, id: Id, text: string)
    requires Clean(queue, messages, next) && i < |messages| && messages[i].id == id
    requires StreamsOnly(messages, Some(id)) && Written(messages, id, None)
    ensures var after := messages[i := messages[i].(text := text)];
            StreamsOnly(after, Some(id)) && Written(after, id, None)
  {
    var k :| 0 <= k < |messages| && messages[k].id == id && messages[k].role.Assistant?;
    assert messages[i := messages[i].(text := text)][k].role.Assistant?;
  }

  lemma ShownTasks(p: Peer, session: Id, i: nat, next: nat)
    requires Tasks(p) && Ids(p) && session in p.running && p.running[session].Showcase? && next < |p.script.progress|
    requires MessageAt(p.sessions[session].messages, PROGRESS) == Some(i)
    ensures Tasks(Retold(p, session, i, p.script.progress[next]).(running := p.running[session := Showcase(next)]))
  {
    hide Joined, StreamsOnly, Written, Clean;
    var state := p.sessions[session];
    assert TaskAt(p, session);
    Reshown(state.queue, state.messages, p.nextID, i, PROGRESS, p.script.progress[next]);
    var q := Retold(p, session, i, p.script.progress[next]).(running := p.running[session := Showcase(next)]);
    OtherTasks(p, q, session);
  }
}
